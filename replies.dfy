/**
 * The two replies every MSRP session kind sends for an incoming request:
 * the transaction response (`sendResponse` in src/RelayConnection.js,
 * src/Session.js and src/DataChannelSession.js, three copies of one
 * function) and the success REPORT (`sendReport` in src/Session.js and
 * src/DataChannelSession.js).
 */
module Replies {
  import opened Wrappers
  import opened Message
  import opened Assoc
  import Status
  import Util
  import HeaderNames

  /**
   * Whether the request's Failure-Report setting asks for a response with
   * this status: 200 only when success responses are wanted, any other
   * status only when failure responses are.
   */
  predicate Wanted(on: ResponseOn, status: int)
  {
    if status == Status.OK then on.success else on.failure
  }

  /**
   * `sendResponse(req, con, uri, status)`: the response handed to the
   * transport, `None` when the request does not want it. A request with no
   * `responseOn` (a method other than SEND or REPORT without a
   * Failure-Report header) throws a TypeError. An empty or missing `uri`
   * makes `new OutgoingResponse` return early, so `new` yields the bare
   * object, modelled as a blank response.
   */
  function Reply(req: Msg, uri: string, status: int): (r: Outcome<Option<Msg>>)
    requires req.kind.Request?
    ensures r.Threw? <==> req.responseOn.None?
    ensures r.Returned? ==> (r.value.Some? <==> Wanted(req.responseOn.value, status))
    ensures r.Returned? && r.value.Some? && uri == "" ==> r.value.value == Blank(Response, "")
    ensures r.Returned? && r.value.Some? && uri != "" ==> r.value.value == OutgoingResponse(req, uri, status)
  {
    if req.responseOn.None? then Threw("TypeError: responseOn is undefined")
    else if !Wanted(req.responseOn.value, status) then Returned(None)
    else if uri == "" then Returned(Some(Blank(Response, "")))
    else Returned(Some(OutgoingResponse(req, uri, status)))
  }

  /**
   * A wanted response to a request sent from a known hop carries the
   * request's transaction id and the status, goes back to the previous hop
   * for SEND and along the whole From-Path otherwise, and comes from `uri`.
   */
  lemma ReplyAddressed(req: Msg, uri: string, status: int)
    requires req.kind.Request? && req.responseOn.Some? && Wanted(req.responseOn.value, status)
    requires uri != "" && |req.fromPath| > 0
    ensures var r := Reply(req, uri, status);
      r.Returned? && r.value.Some?
      && r.value.value.kind == Response && r.value.value.tid == req.tid
      && r.value.value.status == Some(if status == 0 then Status.OK else status)
      && r.value.value.fromPath == [uri]
      && r.value.value.toPath == (if req.kind.verb == "SEND" then [req.fromPath[0]] else req.fromPath)
  {
    OutgoingResponseRoute(req, uri, status);
  }

  /** A REPORT request from the parser never wants a response, whatever its status. */
  lemma ReportsGetNoReply(tid: string, uri: string, status: int)
    ensures Reply(IncomingRequest(tid, "REPORT"), uri, status) == Returned(None)
  {
  }

  /** A SEND from the parser without a Failure-Report header gets every response. */
  lemma SendsGetEveryReply(tid: string, uri: string, status: int)
    requires uri != ""
    ensures Reply(IncomingRequest(tid, "SEND"), uri, status) == Returned(Some(OutgoingResponse(IncomingRequest(tid, "SEND"), uri, status)))
  {
  }

  /**
   * What the `sendResponse` calls for the statuses answered, in order,
   * hand to the transport: the responses the request wants.
   */
  function Responses(req: Msg, uri: string, statuses: seq<int>): (rs: seq<Msg>)
    requires req.kind.Request? && req.responseOn.Some?
    ensures |rs| <= |statuses|
    ensures (forall i :: 0 <= i < |statuses| ==> Wanted(req.responseOn.value, statuses[i])) ==> |rs| == |statuses|
    ensures (forall i :: 0 <= i < |statuses| ==> !Wanted(req.responseOn.value, statuses[i])) ==> rs == []
  {
    if statuses == [] then []
    else
      var r := Reply(req, uri, statuses[0]).value;
      (if r.Some? then [r.value] else []) + Responses(req, uri, statuses[1..])
  }

  // ---------------------------------------------------------------------
  // sendReport

  /**
   * The REPORT before its Byte-Range: addressed like any request, with the
   * Message-ID and a 200 Status, as the two `addHeader` calls leave it
   * (lemma ReportHeadingAdded).
   */
  function ReportHeading(req: Msg, toPath: seq<string>, localUri: string, tid: string): Msg
  {
    var mid := req.messageId.GetOr("");
    OutgoingRequest(toPath, localUri, "REPORT", tid).(headers := [("Message-ID", [mid]), ("Status", ["000 200 OK"])])
  }

  /**
   * The REPORT's Byte-Range end: the start plus the body's length less one,
   * or 0 when the request has no (truthy) body.
   */
  function ReportEnd(req: Msg, start: int): int
  {
    if req.body.None? || !req.body.value.Truthy() then 0 else start + |req.body.value.Octets()| - 1
  }

  /**
   * `sendReport(session, req)` with the session's To-Path and local URI and
   * the new transaction id `tid`. A Byte-Range is added when the request
   * had one or was flagged '+'; it keeps the request's start and total
   * (1 and '*' without a range) and recomputes the end. Comparing that end
   * with `req.byteRange.end` throws a TypeError when the request had no
   * range.
   */
  function ReportFor(req: Msg, toPath: seq<string>, localUri: string, tid: string): (r: Outcome<Msg>)
  {
    var h := ReportHeading(req, toPath, localUri, tid);
    if req.byteRange.None? && req.flag != Continued then Returned(h)
    else if req.byteRange.None? then Threw("TypeError: byteRange is undefined")
    else
      var br := req.byteRange.value;
      Returned(h.(byteRange := Some(ByteRange(br.start, ReportEnd(req, br.start), br.total))))
  }

  lemma AddStatus(m: Msg, mid: string)
    requires m.headers == [("Message-ID", [mid])]
    ensures AddHeader(m, "status", "000 200 OK").headers == [("Message-ID", [mid]), ("Status", ["000 200 OK"])]
    ensures AddHeader(m, "status", "000 200 OK") == m.(headers := [("Message-ID", [mid]), ("Status", ["000 200 OK"])])
  {
    HeaderNames.Status();
    AddHeaderNew(m, "status", "000 200 OK");
  }

  lemma AddReportId(m: Msg, mid: string)
    requires m.headers == []
    ensures AddHeader(m, "message-id", mid) == m.(headers := [("Message-ID", [mid])])
  {
    HeaderNames.MessageId();
    AddHeaderNew(m, "message-id", mid);
  }

  /**
   * Lines 871-873 of src/Session.js: the heading is the new REPORT after
   * `addHeader('message-id', ..)` and `addHeader('status', '000 200 OK')`.
   */
  lemma ReportHeadingAdded(req: Msg, toPath: seq<string>, localUri: string, tid: string)
    ensures var mid := req.messageId.GetOr("");
      ReportHeading(req, toPath, localUri, tid)
        == AddHeader(AddHeader(OutgoingRequest(toPath, localUri, "REPORT", tid), "message-id", mid), "status", "000 200 OK")
  {
    var mid := req.messageId.GetOr("");
    var r0 := OutgoingRequest(toPath, localUri, "REPORT", tid);
    AddReportId(r0, mid);
    AddStatus(AddHeader(r0, "message-id", mid), mid);
  }

  /**
   * A REPORT for a request with a Byte-Range is a REPORT along the
   * session's To-Path from its local URI, carrying the request's Message-ID
   * (empty when it had none) and the status '000 200 OK', and the range
   * from the request's start, over the bytes actually received, of the
   * request's total. When the request's own end is right, the REPORT
   * repeats the request's range.
   */
  lemma ReportRange(req: Msg, toPath: seq<string>, localUri: string, tid: string)
    requires req.byteRange.Some?
    ensures var r := ReportFor(req, toPath, localUri, tid);
      var br := req.byteRange.value;
      && r.Returned?
      && r.value.kind == Request("REPORT") && r.value.tid == tid
      && r.value.toPath == toPath && r.value.fromPath == [localUri]
      && Get(r.value.headers, "Message-ID") == Some([req.messageId.GetOr("")])
      && Get(r.value.headers, "Status") == Some(["000 200 OK"])
      && r.value.byteRange.Some?
      && r.value.byteRange.value.start == br.start && r.value.byteRange.value.total == br.total
      && (req.body.Some? && req.body.value.Truthy() ==>
            r.value.byteRange.value.end == br.start + |req.body.value.Octets()| - 1)
      && (req.body.None? || !req.body.value.Truthy() ==> r.value.byteRange.value.end == 0)
      && (req.body.Some? && req.body.value.Truthy() && br.end == br.start + |req.body.value.Octets()| - 1 ==>
            r.value.byteRange == req.byteRange)
  {
  }

  /**
   * Without a Byte-Range, a request flagged '+' makes `sendReport` throw,
   * and any other request gets a REPORT without a range.
   */
  lemma ReportWithoutRange(req: Msg, toPath: seq<string>, localUri: string, tid: string)
    requires req.byteRange.None?
    ensures var r := ReportFor(req, toPath, localUri, tid);
      (r.Threw? <==> req.flag == Continued)
      && (r.Returned? ==> r.value.byteRange.None? && r.value.kind == Request("REPORT"))
  {
  }
}
