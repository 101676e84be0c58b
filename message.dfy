/**
 * MSRP messages (src/Message.js): requests and responses, their header
 * table, the end-line, and the encoders of outgoing requests and responses.
 *
 * A message is a value. `addHeader` and `encode`, which update the message
 * object in place, return the updated message here.
 */
module Message {
  import opened Wrappers
  import opened JsString
  import opened Assoc
  import Util
  import Status
  import HeaderNames

  /** The continuation flags of RFC 4975 section 7.1. */
  const Continued: string := "+"
  const End: string := "$"
  const Abort: string := "#"

  /**
   * A body: a JavaScript string, or bytes (Blob, ArrayBuffer). Octets are
   * characters with one character per byte. A string body is false when
   * empty; a Blob or an ArrayBuffer is always true.
   */
  datatype Body = Text(text: string) | Binary(octets: string)
  {
    function Octets(): string
    {
      if Text? then text else octets
    }

    predicate Truthy()
    {
      Binary? || text != ""
    }
  }

  /** A Byte-Range; -1 stands for '*'. */
  datatype ByteRange = ByteRange(start: int, end: int, total: int)

  /** When a response is wanted, from the Failure-Report header. */
  datatype ResponseOn = ResponseOn(success: bool, failure: bool)

  /** A parsed Content-Disposition: the disposition type and its parameters. */
  datatype Disposition = Disposition(kind: string, params: Assoc<string, string>)

  /** A request with its method (SEND, REPORT, AUTH, ...), or a response. */
  datatype Kind = Request(verb: string) | Response

  /**
   * A message. Fields that the source leaves undefined or null are `None`.
   * `status` and `comment` are set on responses, and on requests carrying a
   * Status header.
   */
  datatype Msg = Msg(
    kind: Kind,
    tid: string,
    toPath: seq<string>,
    fromPath: seq<string>,
    headers: Assoc<string, seq<string>>,
    flag: string,
    contentType: Option<string>,
    body: Option<Body>,
    byteRange: Option<ByteRange>,
    status: Option<int>,
    comment: Option<string>,
    messageId: Option<string>,
    responseOn: Option<ResponseOn>,
    disposition: Option<Disposition>,
    authenticate: Option<seq<Assoc<string, string>>>,
    usePath: Option<seq<string>>,
    expires: Option<int>)

  /** `initMessage` (with `initRequest` or `initResponse`): no tid yet, empty paths and headers, flag '$'. */
  function Blank(kind: Kind, tid: string): Msg
  {
    Msg(kind, tid, [], [], [], End, None, None, None, None, None, None, None, None, None, None, None)
  }

  // ---------------------------------------------------------------------
  // headers

  /** The values stored under an already normalised header name. */
  function Values(m: Msg, name: string): seq<string>
  {
    Get(m.headers, name).GetOr([])
  }

  /** Every stored header has at least one value and appears once. */
  predicate WellFormed(m: Msg)
  {
    UniqueKeys(m.headers) && forall i :: 0 <= i < |m.headers| ==> |m.headers[i].1| > 0
  }

  /**
   * The body of `addHeader` once the name `n` is normalised: only the paths,
   * the content type and the header table can change.
   */
  function Store(m: Msg, n: string, value: string): (r: Msg)
    ensures r == m.(toPath := r.toPath, fromPath := r.fromPath, contentType := r.contentType, headers := r.headers)
  {
    if n == "To-Path" then m.(toPath := Split(value, " "))
    else if n == "From-Path" then m.(fromPath := Split(value, " "))
    else if n == "Content-Type" then m.(contentType := Some(value))
    else m.(headers := Put(m.headers, n, Values(m, n) + [value]))
  }

  /** `addHeader(name, value)` */
  function AddHeader(m: Msg, name: string, value: string): (r: Msg)
    ensures r == m.(toPath := r.toPath, fromPath := r.fromPath, contentType := r.contentType, headers := r.headers)
  {
    Store(m, Util.Normalise(name), value)
  }

  /** The header names that `addHeader` stores in fields of their own. */
  predicate Special(n: string)
  {
    n == "To-Path" || n == "From-Path" || n == "Content-Type"
  }

  /**
   * A header other than the three special ones is appended to the list of
   * its normalised name, and the other names and every field keep their values.
   */
  lemma AddHeaderAppends(m: Msg, name: string, value: string, other: string)
    requires !Special(Util.Normalise(name))
    ensures Values(AddHeader(m, name, value), Util.Normalise(name)) == Values(m, Util.Normalise(name)) + [value]
    ensures other != Util.Normalise(name) ==> Values(AddHeader(m, name, value), other) == Values(m, other)
    ensures AddHeader(m, name, value).(headers := m.headers) == m
  {
    var n := Util.Normalise(name);
    GetPut(m.headers, n, Values(m, n) + [value], n);
    GetPut(m.headers, n, Values(m, n) + [value], other);
  }

  /** A header that is not yet present is added at the end of the table. */
  lemma AddHeaderNew(m: Msg, name: string, value: string)
    requires !Special(Util.Normalise(name)) && Get(m.headers, Util.Normalise(name)).None?
    ensures AddHeader(m, name, value) == m.(headers := m.headers + [(Util.Normalise(name), [value])])
  {
    var n := Util.Normalise(name);
    assert Values(m, n) + [value] == [value];
    PutNew(m.headers, n, [value]);
  }

  /** To-Path and From-Path replace the path by the value split at spaces; Content-Type replaces the type. */
  lemma AddHeaderSpecial(m: Msg, name: string, value: string)
    requires Special(Util.Normalise(name))
    ensures var r := AddHeader(m, name, value);
      r.headers == m.headers
      && (Util.Normalise(name) == "To-Path" ==> r == m.(toPath := Split(value, " ")))
      && (Util.Normalise(name) == "From-Path" ==> r == m.(fromPath := Split(value, " ")))
      && (Util.Normalise(name) == "Content-Type" ==> r == m.(contentType := Some(value)))
  {
  }

  /** Adding a header keeps every stored header non-empty and unique. */
  lemma AddHeaderWellFormed(m: Msg, name: string, value: string)
    requires WellFormed(m)
    ensures WellFormed(AddHeader(m, name, value))
  {
    var n := Util.Normalise(name);
    if !Special(n) {
      var v := Values(m, n) + [value];
      PutKeepsUnique(m.headers, n, v);
      var h := Put(m.headers, n, v);
      forall i | 0 <= i < |h| ensures |h[i].1| > 0 {
        var k := h[i].0;
        GetPut(m.headers, n, v, k);
        GetValue(h, k, i);
        if k != n {
          GetFound(m.headers, k);
          var j :| 0 <= j < |m.headers| && m.headers[j] == (k, Get(m.headers, k).value);
          assert |m.headers[j].1| > 0;
        }
      }
    }
  }

  lemma {:induction false} GetFound<K, V>(m: Assoc<K, V>, k: K)
    requires Get(m, k).Some?
    ensures exists i :: 0 <= i < |m| && m[i] == (k, Get(m, k).value)
    decreases |m|
  {
    if m[0].0 != k {
      GetFound(m[1..], k);
      var i :| 0 <= i < |m[1..]| && m[1..][i] == (k, Get(m, k).value);
      assert m[i + 1] == (k, Get(m, k).value);
    }
  }

  lemma {:induction false} GetValue<K, V>(m: Assoc<K, V>, k: K, i: nat)
    requires UniqueKeys(m) && i < |m| && m[i].0 == k
    ensures Get(m, k) == Some(m[i].1)
    decreases |m|
  {
    if i > 0 {
      assert m[0].0 != k;
      GetValue(m[1..], k, i - 1);
    }
  }

  /** What `getHeader` answers: null, the sole value, or the value list. */
  datatype HeaderValue = NoHeader | OneValue(value: string) | ManyValues(values: seq<string>)

  /**
   * `getHeader(name)`. A name whose list is empty, which `addHeader` never
   * creates, would answer `undefined`; it is folded into `NoHeader`.
   */
  function GetHeader(m: Msg, name: string): (r: HeaderValue)
    ensures var vs := Values(m, Util.Normalise(name));
      (r.NoHeader? <==> |vs| == 0)
      && (r.OneValue? <==> |vs| == 1)
      && (r.OneValue? ==> vs == [r.value])
      && (r.ManyValues? ==> vs == r.values && |vs| > 1)
  {
    match Get(m.headers, Util.Normalise(name))
    case None => NoHeader
    case Some(vs) => if |vs| > 1 then ManyValues(vs) else if |vs| == 1 then OneValue(vs[0]) else NoHeader
  }

  /** Header lookup ignores the letter case of the name. */
  lemma GetHeaderCaseInsensitive(m: Msg, a: string, b: string)
    requires ToLower(a) == ToLower(b)
    ensures GetHeader(m, a) == GetHeader(m, b)
  {
    Util.NormaliseCaseInsensitive(a, b);
  }

  /** After `addHeader` of an ordinary header, `getHeader` answers the new value, or the list it closes. */
  lemma GetHeaderAfterAdd(m: Msg, name: string, value: string)
    requires !Special(Util.Normalise(name))
    ensures var before := Values(m, Util.Normalise(name));
      GetHeader(AddHeader(m, name, value), name)
        == if before == [] then OneValue(value) else ManyValues(before + [value])
  {
    AddHeaderAppends(m, name, value, name);
    Util.NormaliseIdempotent(name);
  }

  // ---------------------------------------------------------------------
  // end-line

  /** `getEndLineNoFlag()` */
  function EndLineNoFlag(m: Msg): string
  {
    "-------" + m.tid
  }

  /** `getEndLine()`: the end-line of RFC 4975 section 7.1, with the flag and CRLF. */
  function EndLine(m: Msg): (r: string)
    ensures r == EndLineNoFlag(m) + m.flag + CRLF
    ensures |r| >= 9
  {
    EndLineNoFlag(m) + m.flag + CRLF
  }

  // ---------------------------------------------------------------------
  // construction

  /** `new IncomingRequest(tid, method)`; SEND wants both responses and REPORT none. */
  function IncomingRequest(tid: string, verb: string): Msg
  {
    Blank(Request(verb), tid).(
      responseOn := if verb == "SEND" then Some(ResponseOn(true, true))
                    else if verb == "REPORT" then Some(ResponseOn(false, false))
                    else None,
      byteRange := Some(ByteRange(1, -1, -1)))
  }

  /** `new IncomingResponse(tid, status, comment)`. */
  function IncomingResponse(tid: string, status: int, comment: Option<string>): Msg
  {
    Blank(Response, tid).(status := Some(status), comment := comment, authenticate := Some([]))
  }

  /**
   * `new OutgoingRequest(session, method)`: the session's To-Path, a From-Path
   * of the local URI, and a transaction id taken from the id source.
   */
  function OutgoingRequest(toPath: seq<string>, localUri: string, verb: string, tid: string): Msg
    requires verb != ""
  {
    Blank(Request(verb), tid).(toPath := toPath, fromPath := [localUri])
  }

  /**
   * `new OutgoingResponse(request, localUri, status)`, where a `status` of 0
   * stands for an absent status, which means 200.
   */
  function OutgoingResponse(request: Msg, localUri: string, status: int): Msg
    requires request.kind.Request?
  {
    var code := if status == 0 then Status.OK else status;
    Blank(Response, request.tid).(
      status := Some(code),
      comment := Status.Comment(code),
      toPath := if request.kind.verb == "SEND" then request.fromPath[..if |request.fromPath| < 1 then 0 else 1]
                else request.fromPath,
      fromPath := [localUri])
  }

  /** A response to a SEND goes back only to the previous hop; other responses retrace the whole From-Path. */
  lemma OutgoingResponseRoute(request: Msg, localUri: string, status: int)
    requires request.kind.Request? && |request.fromPath| > 0
    ensures var r := OutgoingResponse(request, localUri, status);
      r.tid == request.tid
      && r.fromPath == [localUri]
      && (request.kind.verb == "SEND" ==> r.toPath == [request.fromPath[0]])
      && (request.kind.verb != "SEND" ==> r.toPath == request.fromPath)
      && r.status == Some(if status == 0 then 200 else status)
      && (status == 0 ==> r.comment == Some("OK"))
  {
  }

  // ---------------------------------------------------------------------
  // encoding

  /** The Byte-Range value 'start-end/total', with a negative total written '*'. */
  function ByteRangeValue(r: ByteRange): string
  {
    IntToString(r.start) + "-" + IntToString(r.end) + "/" + (if r.total < 0 then "*" else IntToString(r.total))
  }

  function HeaderLine(h: (string, seq<string>)): string
  {
    h.0 + ": " + Join(h.1, " ") + CRLF
  }

  /** The header lines in the table's order, values joined by ' '. */
  function HeaderLines(h: Assoc<string, seq<string>>): string
  {
    if h == [] then "" else HeaderLines(h[..|h| - 1]) + HeaderLine(h[|h| - 1])
  }

  lemma {:induction false} HeaderLinesCons(h: Assoc<string, seq<string>>)
    requires h != []
    ensures HeaderLines(h) == HeaderLine(h[0]) + HeaderLines(h[1..])
    decreases |h|
  {
    if |h| > 1 {
      var init := h[..|h| - 1];
      HeaderLinesCons(init);
      assert init[1..] == h[1..][..|h[1..]| - 1];
      assert init[0] == h[0];
    } else {
      assert h[..0] == [];
    }
  }

  method EncodeHeaders(h: Assoc<string, seq<string>>) returns (lines: string)
    ensures lines == HeaderLines(h)
  {
    lines := "";
    var i := 0;
    while i < |h|
      invariant 0 <= i <= |h|
      invariant lines == HeaderLines(h[..i])
    {
      assert h[..i + 1][..i] == h[..i];
      lines := lines + HeaderLine(h[i]);
      i := i + 1;
    }
    assert h[..|h|] == h;
  }

  /** `type && this.body`: a body section is written only when both are truthy. */
  predicate HasBody(m: Msg)
  {
    m.contentType.Some? && m.contentType.value != "" && m.body.Some? && m.body.value.Truthy()
  }

  function RequestLine(m: Msg): string
    requires m.kind.Request?
  {
    "MSRP " + m.tid + " " + m.kind.verb + CRLF
  }

  /** A To-Path or From-Path line: the URIs joined by ' '. */
  function PathLine(name: string, path: seq<string>): string
  {
    name + ": " + Join(path, " ") + CRLF
  }

  /** After the headers: the Content-Type line, a blank line, the body and the end-line; or the end-line alone. */
  function RequestTail(m: Msg): string
  {
    if HasBody(m) then "Content-Type: " + m.contentType.value + CRLF + CRLF + m.body.value.Octets() + CRLF + EndLine(m)
    else EndLine(m)
  }

  /** The octets an outgoing request encodes to, given the message after `encode`'s own updates. */
  function RequestText(m: Msg): string
    requires m.kind.Request?
  {
    RequestLine(m) + PathLine("To-Path", m.toPath) + PathLine("From-Path", m.fromPath)
    + HeaderLines(m.headers) + RequestTail(m)
  }

  /** A string body that contains the end-line built with `tid` forces a new transaction id. */
  predicate Collides(m: Msg, tid: string)
  {
    m.body.Some? && m.body.value.Text? && m.body.value.Truthy()
    && Contains(m.body.value.text, "-------" + tid + m.flag + CRLF)
  }

  /**
   * The message `encode` writes once it has chosen `tid`: when there is a
   * range, `addHeader('byte-range', ...)` appends it, under the canonical
   * name 'Byte-Range' (`PreparedAddsHeader`).
   */
  function Prepared(m: Msg, tid: string): Msg
  {
    var t := m.(tid := tid);
    if m.byteRange.Some? then Store(t, "Byte-Range", ByteRangeValue(m.byteRange.value)) else t
  }

  lemma PreparedAddsHeader(m: Msg, tid: string)
    requires m.byteRange.Some?
    ensures Prepared(m, tid) == AddHeader(m.(tid := tid), "byte-range", ByteRangeValue(m.byteRange.value))
  {
    HeaderNames.ByteRange();
  }

  /** The Byte-Range header of a prepared message is the previous list plus the formatted range. */
  lemma PreparedByteRange(m: Msg, tid: string)
    requires m.byteRange.Some?
    ensures Values(Prepared(m, tid), "Byte-Range") == Values(m, "Byte-Range") + [ByteRangeValue(m.byteRange.value)]
    ensures Prepared(m, tid).tid == tid
  {
    var t := m.(tid := tid);
    GetPut(t.headers, "Byte-Range", Values(t, "Byte-Range") + [ByteRangeValue(m.byteRange.value)], "Byte-Range");
  }

  /**
   * `encode` is not idempotent on a ranged message: encoding the updated
   * message again appends a second Byte-Range value.
   */
  lemma EncodeTwiceRepeatsByteRange(m: Msg, tid: string)
    requires m.byteRange.Some? && Values(m, "Byte-Range") == []
    ensures Values(Prepared(Prepared(m, tid), tid), "Byte-Range")
      == [ByteRangeValue(m.byteRange.value), ByteRangeValue(m.byteRange.value)]
  {
    PreparedByteRange(m, tid);
    PreparedByteRange(Prepared(m, tid), tid);
  }

  /**
   * The transaction-id loop of `OutgoingRequest.encode()`: while a string
   * body contains the end-line, the next id of `ids` is taken. `used` is the
   * position of the id the message is sent with.
   */
  method ChooseTid(m: Msg, ids: seq<string>) returns (used: nat)
    requires |ids| > 0 && ids[0] == m.tid
    requires exists j :: 0 <= j < |ids| && !Collides(m, ids[j])
    ensures used < |ids| && !Collides(m, ids[used])
    ensures forall j :: 0 <= j < used ==> Collides(m, ids[j])
  {
    used := 0;
    var tid := m.tid;
    if m.body.Some? && m.body.value.Text? && m.body.value.Truthy() {
      while Contains(m.body.value.text, "-------" + tid + m.flag + CRLF)
        invariant used < |ids| && tid == ids[used]
        invariant forall j :: 0 <= j < used ==> Collides(m, ids[j])
        invariant exists j :: used <= j < |ids| && !Collides(m, ids[j])
        decreases |ids| - used
      {
        assert Collides(m, ids[used]);
        used := used + 1;
        tid := ids[used];
      }
    }
  }

  /**
   * `OutgoingRequest.encode()`. `nextIds` lists the ids the id source hands
   * out, in order; `used` is the position, in the current id followed by
   * `nextIds`, of the id the message is sent with.
   */
  method EncodeRequest(m: Msg, nextIds: seq<string>) returns (sent: Msg, text: string, used: nat)
    requires m.kind.Request?
    requires exists j :: 0 <= j < |[m.tid] + nextIds| && !Collides(m, ([m.tid] + nextIds)[j])
    ensures var ids := [m.tid] + nextIds;
      used < |ids| && !Collides(m, ids[used])
      && (forall j :: 0 <= j < used ==> Collides(m, ids[j]))
      && sent == Prepared(m, ids[used])
      && text == RequestText(sent)
  {
    var ids := [m.tid] + nextIds;
    used := ChooseTid(m, ids);
    var tid := ids[used];
    sent := m.(tid := tid);
    text := RequestLine(sent);
    text := text + PathLine("To-Path", sent.toPath);
    text := text + PathLine("From-Path", sent.fromPath);
    if m.byteRange.Some? {
      // addHeader('byte-range', ...), whose name normalises to 'Byte-Range'
      sent := Store(sent, "Byte-Range", ByteRangeValue(m.byteRange.value));
    }
    var lines := EncodeHeaders(sent.headers);
    text := text + lines;
    if HasBody(sent) {
      text := text + ("Content-Type: " + sent.contentType.value + CRLF + CRLF + sent.body.value.Octets() + CRLF + EndLine(sent));
    } else {
      text := text + EndLine(sent);
    }
  }

  /** The status code as JavaScript writes a number, or "null" for a response without one. */
  function StatusText(status: Option<int>): string
  {
    if status.Some? then IntToString(status.value) else "null"
  }

  /** 'MSRP tid status', then ' comment' when the comment is a non-empty string, then CRLF. */
  function StatusLine(m: Msg): string
  {
    "MSRP " + m.tid + " " + StatusText(m.status)
    + (if m.comment.Some? && m.comment.value != "" then " " + m.comment.value else "") + CRLF
  }

  /** The octets an outgoing response encodes to. */
  function ResponseText(m: Msg): string
  {
    StatusLine(m) + PathLine("To-Path", m.toPath) + PathLine("From-Path", m.fromPath)
    + HeaderLines(m.headers) + EndLine(m)
  }

  /** `OutgoingResponse.encode()` */
  method EncodeResponse(m: Msg) returns (text: string)
    ensures text == ResponseText(m)
  {
    text := "MSRP " + m.tid + " " + StatusText(m.status);
    if m.comment.Some? && m.comment.value != "" {
      text := text + (" " + m.comment.value);
    }
    text := text + CRLF;
    text := text + PathLine("To-Path", m.toPath);
    text := text + PathLine("From-Path", m.fromPath);
    var lines := EncodeHeaders(m.headers);
    text := text + lines + EndLine(m);
  }
}
