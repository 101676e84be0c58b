/**
 * What an MSRP session does with an incoming SEND, shared by
 * `onIncomingSend` in src/Session.js and `handleSend` in
 * src/DataChannelSession.js: how the request is classified by its
 * Byte-Range, which application callbacks are due, and which status
 * answers a callback that throws.
 *
 * Application callbacks are modelled by an event log and a verdict
 * function `app`: the event is logged when the callback is called, and
 * `app(e)` says whether the call returned normally, threw
 * `CrocMSRP.Exceptions.UnsupportedMedia`, or threw something else.
 */
module Delivery {
  import opened Wrappers
  import opened Message
  import opened Assoc
  import Notify
  import Status
  import CR = ChunkReceiving
  import JsString
  import HeaderNames

  /**
   * A SEND by its Byte-Range and flag: none at all (reading
   * `req.byteRange.start` throws), a whole message (start 1 and '$'), the
   * first chunk of several (start 1 and '+'), or any later chunk.
   */
  datatype Arrival = Unranged | Whole | Opening | Later

  function ArrivalOf(req: Msg): Arrival
  {
    if req.byteRange.None? then Unranged
    else if req.byteRange.value.start == 1 && req.flag == End then Whole
    else if req.byteRange.value.start == 1 && req.flag == Continued then Opening
    else Later
  }

  /** `req.messageId` is truthy: present and not empty. */
  predicate HasId(req: Msg)
  {
    req.messageId.Some? && req.messageId.value != ""
  }

  /** `req.body` is truthy. */
  predicate HasBody(req: Msg)
  {
    req.body.Some? && req.body.value.Truthy()
  }

  /**
   * What `getHeader` answers for a header holding the values `vs`: null,
   * the sole value, or the list.
   */
  function Answered(vs: seq<string>): HeaderValue
  {
    if |vs| > 1 then ManyValues(vs) else if |vs| == 1 then OneValue(vs[0]) else NoHeader
  }

  /** `req.getHeader('content-description')`, read under the name's canonical form. */
  function Description(req: Msg): HeaderValue
  {
    Answered(Values(req, "Content-Description"))
  }

  /** `Description` is what `getHeader('content-description')` answers. */
  lemma DescriptionHeader(req: Msg)
    ensures Description(req) == GetHeader(req, "content-description")
  {
    HeaderNames.ContentDescription();
  }

  /**
   * `req.getHeader('success-report') === 'yes'`, read under the name's
   * canonical form: a list of values is never the string.
   */
  predicate WantsReport(req: Msg)
  {
    Values(req, "Success-Report") == ["yes"]
  }

  /** `WantsReport` is the source's test on `getHeader('success-report')`. */
  lemma WantsReportHeader(req: Msg)
    ensures WantsReport(req) <==> GetHeader(req, "success-report") == OneValue("yes")
  {
    HeaderNames.SuccessReport();
  }

  /** The status of the error response for an exception caught while handling a SEND. */
  function Caught(v: Notify.Verdict): int
  {
    if v == Notify.Unsupported then Status.UNSUPPORTED_MEDIA else Status.INTERNAL_SERVER_ERROR
  }

  /**
   * The key a SEND response is filed under: the request's Message-ID
   * header as `getHeader` returns it, `None` when that is falsy. A header
   * with several values yields an array, which a property lookup turns into
   * its values joined by ','.
   */
  function SendKey(h: HeaderValue): Option<string>
  {
    match h
    case NoHeader => None
    case OneValue(v) => if v == "" then None else Some(v)
    case ManyValues(vs) => Some(JsString.Join(vs, ","))
  }

  /** The key of a SEND request's response, read under the Message-ID header's canonical name. */
  function SentId(request: Msg): Option<string>
  {
    SendKey(Answered(Values(request, "Message-ID")))
  }

  /** `SentId` is the key `getHeader('message-id')` yields. */
  lemma SentIdHeader(request: Msg)
    ensures SentId(request) == SendKey(GetHeader(request, "message-id"))
  {
    HeaderNames.MessageId();
  }

  // ---------------------------------------------------------------------
  // the callbacks of one SEND

  /**
   * Callbacks called in order until one throws: the events of those
   * called, and how the last one returned (`Accept` when none threw).
   */
  function Attempt(evs: seq<Notify.Event>, app: Notify.Event -> Notify.Verdict): (r: (seq<Notify.Event>, Notify.Verdict))
  {
    if evs == [] then ([], Notify.Accept)
    else if app(evs[0]) != Notify.Accept then ([evs[0]], app(evs[0]))
    else
      var t := Attempt(evs[1..], app);
      ([evs[0]] + t.0, t.1)
  }

  /** Every callback is called, and the handling goes on, exactly when none of them throws. */
  lemma {:induction false} AttemptAll(evs: seq<Notify.Event>, app: Notify.Event -> Notify.Verdict)
    ensures Attempt(evs, app).1 == Notify.Accept <==> forall i :: 0 <= i < |evs| ==> app(evs[i]) == Notify.Accept
    ensures Attempt(evs, app).1 == Notify.Accept ==> Attempt(evs, app).0 == evs
  {
    if evs != [] && app(evs[0]) == Notify.Accept {
      AttemptAll(evs[1..], app);
      if Attempt(evs, app).1 != Notify.Accept {
        var i :| 0 <= i < |evs[1..]| && app(evs[1..][i]) != Notify.Accept;
        assert app(evs[i + 1]) != Notify.Accept;
      }
    }
  }

  /**
   * The callbacks `evs` called in turn, appended to the event log `log`,
   * until one throws: its verdict is returned and the rest are not called.
   */
  method Call(log: seq<Notify.Event>, evs: seq<Notify.Event>, app: Notify.Event -> Notify.Verdict)
    returns (log': seq<Notify.Event>, v: Notify.Verdict)
    ensures log' == log + Attempt(evs, app).0 && v == Attempt(evs, app).1
  {
    log', v := log, Notify.Accept;
    var i := 0;
    assert evs[i..] == evs && evs[..i] == [] && log + evs[..i] == log;
    while i < |evs|
      invariant 0 <= i <= |evs|
      invariant Attempt(evs, app).0 == evs[..i] + Attempt(evs[i..], app).0
      invariant Attempt(evs, app).1 == Attempt(evs[i..], app).1
      invariant log' == log + evs[..i] && v == Notify.Accept
    {
      assert evs[i..][0] == evs[i] && evs[i..][1..] == evs[i + 1..];
      log' := log' + [evs[i]];
      if app(evs[i]) != Notify.Accept {
        v := app(evs[i]);
        assert evs[..i] + [evs[i]] == evs[..i + 1];
        return;
      }
      var rest := Attempt(evs[i + 1..], app);
      assert Attempt(evs[i..], app) == ([evs[i]] + rest.0, rest.1);
      assert evs[..i] + ([evs[i]] + rest.0) == evs[..i + 1] + rest.0;
      i := i + 1;
    }
  }

  /**
   * Otherwise the first callback that throws is the last one called, and
   * its verdict is the result.
   */
  lemma {:induction false} AttemptStops(evs: seq<Notify.Event>, app: Notify.Event -> Notify.Verdict, j: nat)
    requires j < |evs| && app(evs[j]) != Notify.Accept
    requires forall i :: 0 <= i < j ==> app(evs[i]) == Notify.Accept
    ensures Attempt(evs, app) == (evs[..j + 1], app(evs[j]))
  {
    if j > 0 {
      assert app(evs[0]) == Notify.Accept;
      var rest := evs[1..];
      forall i | 0 <= i < j - 1
        ensures app(rest[i]) == Notify.Accept
      {
        assert rest[i] == evs[i + 1];
      }
      AttemptStops(rest, app, j - 1);
      assert [evs[0]] + rest[..j] == evs[..j + 1];
    } else {
      assert evs[..1] == [evs[0]];
    }
  }

  /**
   * Where a SEND is handled: in a session reached through the WebSocket
   * relay (src/Session.js) or in a session over a data channel
   * (src/DataChannelSession.js).
   */
  datatype Host = Relayed | Channel

  /**
   * Lines 451-485 of src/Session.js and 424-448 of
   * src/DataChannelSession.js: the callbacks due for a non-empty message in
   * one chunk, `mid` being its Message-ID or a new one. Through the relay a
   * file (disposition 'attachment' or 'render') goes through a chunk
   * receiver, made from the request, and is delivered as its blob; a data
   * channel, like any other message through the relay, delivers the body
   * as it came. A file's filename and description are reported as they are.
   */
  function WholeEvents(host: Host, req: Msg, mid: string, recvBuffer: int, now: int): seq<Notify.Event>
    requires req.byteRange.Some?
  {
    var size := req.byteRange.value.total;
    var file := CR.IsFile(req.disposition);
    if host == Relayed && file then
      var first := CR.Start(req, recvBuffer, now);
      [Notify.FirstChunkReceived(mid, req.contentType, Get(req.disposition.value.params, "filename"), size,
         Description(req)),
       Notify.ChunkReceived(mid, first.receivedBytes),
       Notify.BlobReceived(mid, first.blob)]
    else
      [Notify.FirstChunkReceived(mid, req.contentType,
         if file then Get(req.disposition.value.params, "filename") else None, size,
         if file then Description(req) else NoHeader),
       Notify.ChunkReceived(mid, size),
       Notify.MessageReceived(mid, req.contentType, req.body)]
  }

  /**
   * Lines 498-504 of src/Session.js: the one callback for the first chunk
   * of several, with its filename and description, each `null` when falsy.
   */
  function OpeningEvent(req: Msg, mid: string): Notify.Event
    requires req.byteRange.Some? && req.disposition.Some?
  {
    var f := Get(req.disposition.value.params, "filename");
    var d := Description(req);
    Notify.FirstChunkReceived(mid, req.contentType, if f == Some("") then None else f,
      req.byteRange.value.total, if d == OneValue("") then NoHeader else d)
  }

  /**
   * Lines 552-561 of src/Session.js: the callback after a later chunk was
   * taken, the whole blob once the receiver is complete and the count of
   * bytes received so far otherwise.
   */
  function LaterEvent(mid: string, r: CR.Receiver): Notify.Event
  {
    if CR.Complete(r) then Notify.BlobReceived(mid, r.blob) else Notify.ChunkReceived(mid, r.receivedBytes)
  }

  /**
   * `now - receiver.lastReceive > timeout`. A receiver that never took a
   * chunk has no `lastReceive`; the difference is then NaN and never
   * exceeds the timeout.
   */
  predicate Idle(r: CR.Receiver, now: int, timeout: int)
  {
    r.lastReceive.Some? && now - r.lastReceive.value > timeout
  }

  // ---------------------------------------------------------------------
  // the decision of one SEND

  /** What handling a SEND does to the chunk receiver filed under its Message-ID. */
  datatype Filing =
    /** The receivers are left as they were. */
    | Untouched
    /** A new receiver, in state `r`, is filed under the id. */
    | Filed(r: CR.Receiver)
    /** The filed receiver took the chunk and is now in state `r`. */
    | Updated(r: CR.Receiver)
    /**
     * The entry under the id is removed; `Some(r)` when the filed receiver
     * took the chunk first and is now in state `r`, `None` when a new
     * receiver was filed and removed again.
     */
    | Dropped(last: Option<CR.Receiver>)

  /**
   * How handling a SEND ends: the statuses answered, in order (the
   * responses themselves go out when the request wants them), the
   * callbacks called, the receiver filed under the id, whether the
   * receiver sweep is started, and whether a new Message-ID was drawn.
   */
  datatype Handling = Handling(answers: seq<int>, events: seq<Notify.Event>, filing: Filing, sweep: bool, drawn: bool)

  /** The status for a callback's verdict: 200 when it returned, the caught status when it threw. */
  function Settled(v: Notify.Verdict): int
  {
    if v == Notify.Accept then Status.OK else Caught(v)
  }

  /** The handling went through: the only answer is a 200, after which a REPORT may follow. */
  predicate Succeeded(h: Handling)
  {
    h.answers == [Status.OK]
  }

  /** Every callback called returned normally. */
  predicate AllAccepted(evs: seq<Notify.Event>, app: Notify.Event -> Notify.Verdict)
  {
    forall i :: 0 <= i < |evs| ==> app(evs[i]) == Notify.Accept
  }

  /** Some callback called threw UnsupportedMedia. */
  predicate SomeUnsupported(evs: seq<Notify.Event>, app: Notify.Event -> Notify.Verdict)
  {
    exists i :: 0 <= i < |evs| && app(evs[i]) == Notify.Unsupported
  }

  /**
   * `onIncomingSend(req)` (lines 444-582 of src/Session.js) and
   * `handleSend(req)` (lines 418-547 of src/DataChannelSession.js) as one
   * decision, given the state `filed` of the receiver filed under the
   * request's Message-ID, the application's verdicts `app`, the clock, the
   * receive buffer size and the Message-ID `newId` that would be drawn.
   *
   * - No Byte-Range: reading its start throws a TypeError, answered 500.
   * - One whole chunk: an empty one is a ping, answered 200; otherwise the
   *   callbacks are called in turn, with a new Message-ID if it has none.
   * - Any other chunk needs a Message-ID, else 400.
   * - A first chunk without Content-Disposition throws a TypeError (500).
   *   Its receiver is filed only once the application accepts the first
   *   callback, and the sweep then starts; a first chunk that completes the
   *   message files the receiver and removes it again.
   * - A later chunk with no filed receiver gets 413; one the receiver
   *   refuses removes the receiver, gets 413 and tells the application.
   *   Through the relay an exception from that callback is swallowed; over
   *   a data channel it is caught by the outer handler and also answered.
   * - Otherwise the receiver is updated, or removed once complete, and the
   *   callback's verdict gives the answer.
   */
  function Handle(host: Host, req: Msg, filed: Option<CR.Receiver>, app: Notify.Event -> Notify.Verdict,
                  now: int, recvBuffer: int, newId: string): (h: Handling)
    ensures Succeeded(h) ==> req.byteRange.Some?
  {
    match ArrivalOf(req)
    case Unranged => Refused(Status.INTERNAL_SERVER_ERROR)
    case Whole =>
      if !HasBody(req) then Refused(Status.OK)
      else
        var mid := if HasId(req) then req.messageId.value else newId;
        Delivered(Attempt(WholeEvents(host, req, mid, recvBuffer, now), app), !HasId(req))
    case Opening =>
      if !HasId(req) then Refused(Status.BAD_REQUEST)
      else if req.disposition.None? then Refused(Status.INTERNAL_SERVER_ERROR)
      else Opened(OpeningEvent(req, req.messageId.value), app, req.messageId.value, CR.Start(req, recvBuffer, now))
    case Later =>
      if !HasId(req) then Refused(Status.BAD_REQUEST)
      else if filed.None? then Refused(Status.STOP_SENDING)
      else Taken(host, app, req.messageId.value, CR.Process(filed.value, req, now))
  }

  /** An answer given before any callback or receiver is touched. */
  function Refused(status: int): Handling
  {
    Handling([status], [], Untouched, false, false)
  }

  /** A message in one chunk after its callbacks `t` were attempted. */
  function Delivered(t: (seq<Notify.Event>, Notify.Verdict), drawn: bool): Handling
  {
    Handling([Settled(t.1)], t.0, Untouched, false, drawn)
  }

  /**
   * A first chunk whose first callback is `e` and whose new receiver is
   * `r`: the receiver is filed once the application accepts `e`, and the
   * callback for the data taken follows.
   */
  function Opened(e: Notify.Event, app: Notify.Event -> Notify.Verdict, mid: string, r: CR.Receiver): (h: Handling)
    ensures |h.answers| == 1 && h.answers[0] != Status.STOP_SENDING && h.events != [] && !h.drawn
    ensures h.sweep <==> app(e) == Notify.Accept
    ensures h.filing.Untouched? <==> app(e) != Notify.Accept
    ensures h.filing.Filed? ==> h.filing.r == r && !CR.Complete(r)
    ensures h.filing.Updated? ==> false
    ensures h.filing.Dropped? ==> h.filing.last.None?
    ensures Succeeded(h) <==> AllAccepted(h.events, app)
    ensures Status.UNSUPPORTED_MEDIA in h.answers ==> SomeUnsupported(h.events, app)
  {
    if app(e) != Notify.Accept then
      var h := Handling([Caught(app(e))], [e], Untouched, false, false);
      assert app(h.events[0]) == app(e);
      h
    else
      var last := LaterEvent(mid, r);
      var h := Handling([Settled(app(last))], [e, last], if CR.Complete(r) then Dropped(None) else Filed(r), true, false);
      assert app(h.events[0]) == app(e) && app(h.events[1]) == app(last);
      h
  }

  /**
   * A later chunk after the filed receiver processed it, `step` being the
   * receiver's new state and whether it took the chunk.
   */
  function Taken(host: Host, app: Notify.Event -> Notify.Verdict, mid: string, step: (CR.Receiver, bool)): (h: Handling)
    ensures 1 <= |h.answers| <= 2 && h.events != [] && !h.drawn && !h.sweep
    ensures h.answers[0] == Status.STOP_SENDING <==> !step.1
    ensures |h.answers| == 2 ==> host == Channel && !step.1
    ensures h.filing.Updated? || h.filing == Dropped(Some(step.0))
    ensures h.filing.Updated? <==> step.1 && !CR.Complete(step.0)
    ensures h.filing.Updated? ==> h.filing.r == step.0
    ensures step.1 ==> (Succeeded(h) <==> AllAccepted(h.events, app))
    ensures Status.UNSUPPORTED_MEDIA in h.answers ==> SomeUnsupported(h.events, app)
  {
    var (r, ok) := step;
    if !ok then
      var e := Notify.MessageReceiveAborted(mid, r.blob);
      var more := if host == Channel && app(e) != Notify.Accept then [Caught(app(e))] else [];
      var h := Handling([Status.STOP_SENDING] + more, [e], Dropped(Some(r)), false, false);
      assert app(h.events[0]) == app(e);
      h
    else
      var e := LaterEvent(mid, r);
      var h := Handling([Settled(app(e))], [e], if CR.Complete(r) then Dropped(Some(r)) else Updated(r), false, false);
      assert app(h.events[0]) == app(e);
      h
  }

  /** Attempting callbacks: the handling goes on exactly when none threw, and otherwise the last one called threw. */
  lemma {:induction false} AttemptVerdict(evs: seq<Notify.Event>, app: Notify.Event -> Notify.Verdict)
    ensures var t := Attempt(evs, app);
      && (evs != [] ==> t.0 != [])
      && (t.1 == Notify.Accept <==> AllAccepted(t.0, app))
      && (t.1 != Notify.Accept ==> app(t.0[|t.0| - 1]) == t.1)
  {
    if evs != [] && app(evs[0]) == Notify.Accept {
      AttemptVerdict(evs[1..], app);
      var t := Attempt(evs[1..], app);
      var u := Attempt(evs, app);
      assert u.0 == [evs[0]] + t.0;
      if t.1 == Notify.Accept {
        forall i | 0 <= i < |u.0|
          ensures app(u.0[i]) == Notify.Accept
        {
          if i > 0 { assert u.0[i] == t.0[i - 1]; }
        }
      } else {
        assert app(u.0[|u.0| - 1]) == t.1;
        assert !AllAccepted(u.0, app);
      }
    } else if evs != [] {
      var u := Attempt(evs, app);
      assert u.0 == [evs[0]] && app(u.0[0]) != Notify.Accept;
    }
  }

  /** A message in one chunk goes through exactly when every callback it calls returns. */
  lemma WholeDelivered(host: Host, req: Msg, mid: string, app: Notify.Event -> Notify.Verdict,
                       now: int, recvBuffer: int, drawn: bool)
    requires req.byteRange.Some?
    ensures var h := Delivered(Attempt(WholeEvents(host, req, mid, recvBuffer, now), app), drawn);
      && h.events != []
      && (Succeeded(h) <==> AllAccepted(h.events, app))
      && (Status.UNSUPPORTED_MEDIA in h.answers ==> SomeUnsupported(h.events, app))
  {
    var evs := WholeEvents(host, req, mid, recvBuffer, now);
    assert |evs| == 3;
    AttemptVerdict(evs, app);
    var t := Attempt(evs, app);
    if t.1 == Notify.Unsupported {
      assert app(t.0[|t.0| - 1]) == Notify.Unsupported;
    }
  }

  /**
   * The error answers: 400 exactly for a chunked SEND without a
   * Message-ID; 413 first exactly for a later chunk with an id that has no
   * receiver filed or that its receiver refuses; 500 for a SEND without a
   * Byte-Range and for a first chunk without Content-Disposition; a second
   * answer only over a data channel, after a refused chunk.
   */
  lemma HandleRefusals(host: Host, req: Msg, filed: Option<CR.Receiver>, app: Notify.Event -> Notify.Verdict,
                       now: int, recvBuffer: int, newId: string)
    ensures var h := Handle(host, req, filed, app, now, recvBuffer, newId);
      && 1 <= |h.answers| <= 2
      && (h.answers[0] == Status.BAD_REQUEST <==> ArrivalOf(req) in {Opening, Later} && !HasId(req))
      && (h.answers[0] == Status.STOP_SENDING <==>
            ArrivalOf(req) == Later && HasId(req)
            && (filed.None? || !CR.Process(filed.value, req, now).1))
      && (ArrivalOf(req) == Unranged ==> h.answers == [Status.INTERNAL_SERVER_ERROR])
      && (ArrivalOf(req) == Opening && HasId(req) && req.disposition.None? ==>
            h.answers == [Status.INTERNAL_SERVER_ERROR])
      && (|h.answers| == 2 ==> host == Channel && h.answers[0] == Status.STOP_SENDING)
  {
    match ArrivalOf(req)
    case Unranged =>
    case Whole =>
    case Opening =>
    case Later =>
  }

  /**
   * A SEND that gets past the checks (a message in one chunk with a body,
   * a first chunk with an id and a disposition, a later chunk its receiver
   * takes) succeeds exactly when every callback it calls returns; a 415
   * answers a callback that threw UnsupportedMedia.
   */
  lemma HandleSucceeds(host: Host, req: Msg, filed: Option<CR.Receiver>, app: Notify.Event -> Notify.Verdict,
                       now: int, recvBuffer: int, newId: string)
    ensures var h := Handle(host, req, filed, app, now, recvBuffer, newId);
      && (h.events != [] && h.answers[0] != Status.STOP_SENDING ==> (Succeeded(h) <==> AllAccepted(h.events, app)))
      && (h.events == [] ==> h.answers[0] != Status.UNSUPPORTED_MEDIA)
      && (Status.UNSUPPORTED_MEDIA in h.answers ==> SomeUnsupported(h.events, app))
  {
    match ArrivalOf(req)
    case Unranged =>
    case Whole =>
      if HasBody(req) {
        WholeDelivered(host, req, if HasId(req) then req.messageId.value else newId, app, now, recvBuffer, !HasId(req));
      }
    case Opening =>
    case Later =>
  }

  /**
   * A receiver is filed only for a first chunk of several whose first
   * callback the application accepted: it is the receiver made from that
   * chunk, not yet complete, and the sweep starts exactly then. A new
   * Message-ID is drawn only for a message in one chunk without one.
   */
  lemma FiledAfterAccept(host: Host, req: Msg, filed: Option<CR.Receiver>, app: Notify.Event -> Notify.Verdict,
                         now: int, recvBuffer: int, newId: string)
    ensures var h := Handle(host, req, filed, app, now, recvBuffer, newId);
      && (h.filing.Filed? ==>
            && ArrivalOf(req) == Opening && HasId(req) && req.disposition.Some?
            && app(OpeningEvent(req, req.messageId.value)) == Notify.Accept
            && h.filing.r == CR.Start(req, recvBuffer, now) && !CR.Complete(h.filing.r))
      && (h.sweep <==>
            ArrivalOf(req) == Opening && HasId(req) && req.disposition.Some?
            && app(OpeningEvent(req, req.messageId.value)) == Notify.Accept)
      && (h.drawn <==> ArrivalOf(req) == Whole && HasBody(req) && !HasId(req))
  {
    match ArrivalOf(req)
    case Unranged =>
    case Whole =>
    case Opening =>
    case Later =>
  }

  /**
   * A later chunk with a receiver filed under its id is processed by that
   * receiver, which stays filed exactly when it took the chunk and is not
   * yet complete; any other SEND at most files or removes a new receiver.
   */
  lemma LaterProcessed(host: Host, req: Msg, filed: Option<CR.Receiver>, app: Notify.Event -> Notify.Verdict,
                       now: int, recvBuffer: int, newId: string)
    ensures var h := Handle(host, req, filed, app, now, recvBuffer, newId);
      && (ArrivalOf(req) == Later && HasId(req) && filed.Some? ==>
            var (r, ok) := CR.Process(filed.value, req, now);
            && (h.filing.Updated? || h.filing == Dropped(Some(r)))
            && (h.filing.Updated? <==> ok && !CR.Complete(r))
            && (h.filing.Updated? ==> h.filing.r == r))
      && (!(ArrivalOf(req) == Later && HasId(req) && filed.Some?) ==>
            h.filing.Untouched? || h.filing.Filed? || h.filing == Dropped(None))
  {
    match ArrivalOf(req)
    case Unranged =>
    case Whole =>
    case Opening =>
    case Later =>
  }

  /**
   * Both hosts decide alike, except for a file in one chunk (a data
   * channel does not build a receiver for it) and for the callback after
   * a refused chunk, whose exception only a data channel answers.
   */
  lemma HostsAgree(req: Msg, filed: Option<CR.Receiver>, app: Notify.Event -> Notify.Verdict,
                   now: int, recvBuffer: int, newId: string)
    requires !(ArrivalOf(req) == Whole && CR.IsFile(req.disposition))
    ensures var r := Handle(Relayed, req, filed, app, now, recvBuffer, newId);
      var c := Handle(Channel, req, filed, app, now, recvBuffer, newId);
      && r.events == c.events && r.filing == c.filing && r.sweep == c.sweep && r.drawn == c.drawn
      && r.answers == c.answers[..1]
      && (c.answers != r.answers ==> c.answers == r.answers + [Caught(app(c.events[0]))])
  {
    match ArrivalOf(req)
    case Unranged =>
    case Whole =>
      if HasBody(req) {
        WholeHostsAgree(req, if HasId(req) then req.messageId.value else newId, now, recvBuffer);
      }
    case Opening =>
    case Later =>
  }

  /** The callbacks for a message in one chunk that is no file do not depend on the host. */
  lemma WholeHostsAgree(req: Msg, mid: string, now: int, recvBuffer: int)
    requires req.byteRange.Some? && !CR.IsFile(req.disposition)
    ensures WholeEvents(Relayed, req, mid, recvBuffer, now) == WholeEvents(Channel, req, mid, recvBuffer, now)
  {
  }
}
