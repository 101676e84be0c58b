/**
 * Sending of one outgoing message in chunks (src/ChunkSender.js).
 *
 * A sender cuts its payload into SEND chunks of at most `chunkSize` bytes,
 * remembering how many bytes it has sent, and it follows the success
 * REPORTs that come back: `ackedBytes` is the end of the contiguous prefix
 * acknowledged so far, and a report that starts beyond it waits in a map
 * keyed by its first byte until the gap before it is acknowledged. Byte
 * offsets are 1-based, as in a Byte-Range header (RFC 4975 section 7.1).
 *
 * The sender's behaviour is specified on values (`Sender`, `Next`,
 * `Report`); the class `ChunkSender` updates its fields in place, as the
 * source does, and its methods are proved to follow that specification.
 */
module ChunkSending {
  import opened Wrappers
  import opened Message
  import opened Assoc
  import JsString
  import Status
  import Util
  import HeaderNames

  /**
   * The body handed to the constructor: nothing (null, undefined, or the
   * empty string, which JavaScript treats alike), a string, a Blob with its
   * MIME type, a File with its type and name, or an ArrayBuffer or typed
   * array. Octets are characters, one per byte.
   */
  datatype Content =
    | NoContent
    | StringContent(text: string)
    | BlobContent(octets: string, blobType: string)
    | FileContent(octets: string, fileType: string, name: string)
    | BufferContent(octets: string)

  /** A gapped report waits only while fewer than this many are counted; one more starts a resume. */
  const MaxIncontiguousReports: int := 16

  /**
   * The fields of a sender. `handler` says whether an `onReportTimeout`
   * callback is installed, `reportTimer` whether its timer is running.
   */
  datatype Sender = Sender(
    messageId: string,
    blob: string,
    contentType: Option<string>,
    disposition: Option<string>,
    description: Option<string>,
    size: int,
    sentBytes: int,
    ackedBytes: int,
    reports: map<int, int>,
    reportCount: int,
    reportTimer: bool,
    handler: bool,
    aborted: bool,
    remoteAbort: bool)

  /** A JavaScript string option is truthy when present and not empty. */
  predicate Truthy(o: Option<string>)
  {
    o.Some? && o.value != ""
  }

  /** `o || fallback` */
  function Or(o: Option<string>, fallback: string): (r: string)
    ensures Truthy(o) ==> r == o.value
    ensures !Truthy(o) ==> r == fallback
  {
    if Truthy(o) then o.value else fallback
  }

  /** Lines 33-65: the octets, the content type and the disposition chosen for a body. */
  function BodyParts(body: Content, contentType: Option<string>, disposition: Option<string>)
    : (string, Option<string>, Option<string>)
  {
    var p := match body
      case NoContent => ("", None, None)
      case StringContent(t) =>
        if t == "" then ("", None, None) else (t, Some(Or(contentType, "text/plain")), disposition)
      case BlobContent(o, t) => (o, Some(Or(contentType, t)), disposition)
      case FileContent(o, t, n) => (o, Some(Or(contentType, t)), Some(Or(disposition, "attachment; filename=" + n)))
      case BufferContent(o) => (o, Some(Or(contentType, "application/octet-stream")), disposition);
    if p.1 == Some("") then (p.0, Some("application/octet-stream"), p.2) else p
  }

  /** `new ChunkSender(session, body, contentType, disposition, description)` with the new Message-ID `mid`. */
  function Fresh(mid: string, body: Content, contentType: Option<string>, disposition: Option<string>,
                 description: Option<string>): Sender
  {
    var p := BodyParts(body, contentType, disposition);
    Sender(mid, p.0, p.1, p.2, description, |p.0|, 0, 0, map[], 0, false, false, false, false)
  }

  // ---------------------------------------------------------------------
  // getNextChunk

  /**
   * Lines 88-92: a SEND with the session's paths, the Message-ID and both
   * report requests (`HeadingAdded` shows the `addHeader` calls build it).
   */
  function Heading(s: Sender, toPath: seq<string>, localUri: string, tid: string): Msg
  {
    OutgoingRequest(toPath, localUri, "SEND", tid).(headers := HeadingTable(s.messageId))
  }

  /** The source's three `addHeader` calls on a new request. */
  function HeadingAdded(s: Sender, toPath: seq<string>, localUri: string, tid: string): Msg
  {
    var c := OutgoingRequest(toPath, localUri, "SEND", tid);
    AddHeader(AddHeader(AddHeader(c, "message-id", s.messageId), "success-report", "yes"), "failure-report", "yes")
  }

  /**
   * Lines 103-113: the MIME headers of the first chunk after the heading;
   * the disposition defaults to 'inline' (`MimeAdded` shows the `addHeader`
   * calls build it).
   */
  function Described(c: Msg, s: Sender): Msg
  {
    c.(headers := c.headers + MimeTable(s))
  }

  /** The source's `addHeader` calls for the disposition and a truthy description. */
  function MimeAdded(c: Msg, s: Sender): Msg
  {
    var d := AddHeader(c, "content-disposition", Or(s.disposition, "inline"));
    if Truthy(s.description) then AddHeader(d, "content-description", s.description.value) else d
  }

  /** Line 97: the first byte of the next chunk. */
  function ChunkStart(s: Sender): int
  {
    s.sentBytes + 1
  }

  /** Line 98: the last byte of the next chunk. */
  function ChunkEnd(s: Sender, chunkSize: int): int
  {
    if s.sentBytes + chunkSize < s.size then s.sentBytes + chunkSize else s.size
  }

  /**
   * The chunk `getNextChunk()` returns, for the session paths `toPath` and
   * `localUri`, the new transaction id `tid` and the configured `chunkSize`.
   */
  function Chunk(s: Sender, toPath: seq<string>, localUri: string, tid: string, chunkSize: int): Msg
  {
    if s.aborted then Heading(s, toPath, localUri, tid).(flag := Abort)
    else Flagged(Payload(Mime(Ranged(s, toPath, localUri, tid, chunkSize), s), s, ChunkEnd(s, chunkSize)),
                 s, ChunkEnd(s, chunkSize))
  }

  /** Lines 97-99: the chunk's Byte-Range: the bytes after the sent ones, up to the chunk's end, of the whole size. */
  function Ranged(s: Sender, toPath: seq<string>, localUri: string, tid: string, chunkSize: int): Msg
  {
    Heading(s, toPath, localUri, tid).(byteRange := Some(ByteRange(ChunkStart(s), ChunkEnd(s, chunkSize), s.size)))
  }

  /** Lines 101-113: only the first chunk of a non-empty message carries the MIME headers. */
  function Mime(c: Msg, s: Sender): Msg
  {
    if s.size > 0 && s.sentBytes == 0 then Described(c, s) else c
  }

  /** Lines 101-116: a chunk of a non-empty message carries its content type and the bytes after the sent ones up to `end`. */
  function Payload(c: Msg, s: Sender, end: int): Msg
  {
    c.(contentType := if s.size > 0 then s.contentType else c.contentType,
       body := if s.size > 0 then Some(Binary(JsString.BlobSlice(s.blob, s.sentBytes, end))) else c.body)
  }

  /** Lines 118-119: the flag of a chunk is '+' while bytes remain after it. */
  function Flagged(c: Msg, s: Sender, end: int): Msg
  {
    c.(flag := if end < s.size then Continued else c.flag)
  }

  /** Lines 118-127: the sender after `getNextChunk()`; the last chunk starts the report timer when a handler is set. */
  function Advanced(s: Sender, chunkSize: int): Sender
  {
    if s.aborted then s
    else
      var end := ChunkEnd(s, chunkSize);
      if end < s.size then s.(sentBytes := end)
      else s.(sentBytes := end, reportTimer := s.reportTimer || s.handler)
  }

  /**
   * Lines 33-68: an absent or empty body sends nothing and has no type or
   * disposition; any other body keeps a truthy content type given by the
   * caller, and its type is never empty: a missing one falls back to the
   * Blob's or File's own type, 'text/plain' for a string and
   * 'application/octet-stream' for bytes, and an empty one to
   * 'application/octet-stream'. A File always has a disposition, by default
   * an attachment carrying its name.
   */
  lemma BodyPartsFields(body: Content, contentType: Option<string>, disposition: Option<string>)
    ensures var p := BodyParts(body, contentType, disposition);
      var none := body.NoContent? || body == StringContent("");
      (none ==> p == ("", None, None))
      && (!none ==> p.1.Some? && p.1.value != "")
      && (!none && Truthy(contentType) ==> p.1 == contentType)
      && (!none && !Truthy(contentType) && body.StringContent? ==> p.1 == Some("text/plain"))
      && (!none && !Truthy(contentType) && body.BufferContent? ==> p.1 == Some("application/octet-stream"))
      && (!none && !Truthy(contentType) && body.BlobContent? && body.blobType != "" ==> p.1 == Some(body.blobType))
      && (body.FileContent? ==> Truthy(p.2) && (Truthy(disposition) ==> p.2 == disposition))
      && (!none && !body.FileContent? ==> p.2 == disposition)
      && (body.StringContent? ==> p.0 == body.text)
      && (!body.NoContent? && !body.StringContent? ==> p.0 == body.octets)
  {
  }

  /** The headers every chunk carries, in the order they are added. */
  function HeadingTable(mid: string): Assoc<string, seq<string>>
  {
    [("Message-ID", [mid]), ("Success-Report", ["yes"]), ("Failure-Report", ["yes"])]
  }

  /** The canonical names of every header a chunk may carry. */
  lemma HeadingNames()
    ensures Util.Normalise("message-id") == "Message-ID"
    ensures Util.Normalise("success-report") == "Success-Report"
    ensures Util.Normalise("failure-report") == "Failure-Report"
    ensures Util.Normalise("content-disposition") == "Content-Disposition"
    ensures Util.Normalise("content-description") == "Content-Description"
  {
    HeaderNames.MessageId();
    HeaderNames.SuccessReport();
    HeaderNames.FailureReport();
    HeaderNames.ContentDisposition();
    HeaderNames.ContentDescription();
  }

  lemma PlainNames()
    ensures !Special("Message-ID") && !Special("Success-Report") && !Special("Failure-Report")
    ensures !Special("Content-Disposition") && !Special("Content-Description")
  {
  }

  /**
   * Lines 88-92: the three `addHeader` calls give every chunk the heading
   * table, the Message-ID first and both report requests after it.
   */
  lemma HeadingShape(s: Sender, toPath: seq<string>, localUri: string, tid: string)
    ensures HeadingAdded(s, toPath, localUri, tid) == Heading(s, toPath, localUri, tid)
  {
    var mid := s.messageId;
    var c0 := OutgoingRequest(toPath, localUri, "SEND", tid);
    var c1 := AddHeader(c0, "message-id", mid);
    var c2 := AddHeader(c1, "success-report", "yes");
    assert HeadingAdded(s, toPath, localUri, tid) == AddHeader(c2, "failure-report", "yes");
    AddMessageId(c0, mid);
    AddSuccessReport(c1, mid);
    AddFailureReport(c2, mid);
  }

  lemma AddMessageId(m: Msg, mid: string)
    requires m.headers == []
    ensures AddHeader(m, "message-id", mid) == m.(headers := [("Message-ID", [mid])])
  {
    HeaderNames.MessageId();
    PlainNames();
    AddNamed(m, "message-id", "Message-ID", mid);
  }

  lemma AddSuccessReport(m: Msg, mid: string)
    requires m.headers == [("Message-ID", [mid])]
    ensures AddHeader(m, "success-report", "yes") == m.(headers := [("Message-ID", [mid]), ("Success-Report", ["yes"])])
  {
    Unlisted(m.headers, ["Message-ID"], "Success-Report");
    HeaderNames.SuccessReport();
    PlainNames();
    AddNamed(m, "success-report", "Success-Report", "yes");
  }

  lemma AddFailureReport(m: Msg, mid: string)
    requires m.headers == [("Message-ID", [mid]), ("Success-Report", ["yes"])]
    ensures AddHeader(m, "failure-report", "yes") == m.(headers := HeadingTable(mid))
  {
    Unlisted(m.headers, ["Message-ID", "Success-Report"], "Failure-Report");
    HeaderNames.FailureReport();
    PlainNames();
    AddNamed(m, "failure-report", "Failure-Report", "yes");
  }

  /** A name missing from the names of a table is a key of none of its entries. */
  lemma Unlisted(h: Assoc<string, seq<string>>, ks: seq<string>, n: string)
    requires |h| == |ks| && n !in ks
    requires forall i :: 0 <= i < |h| ==> h[i].0 == ks[i]
    ensures forall i :: 0 <= i < |h| ==> h[i].0 != n
  {
  }

  /** A plain header that is not in the table yet goes at its end under its canonical name. */
  lemma AddNamed(m: Msg, name: string, n: string, value: string)
    requires Util.Normalise(name) == n && !Special(n)
    requires forall i :: 0 <= i < |m.headers| ==> m.headers[i].0 != n
    ensures AddHeader(m, name, value) == m.(headers := m.headers + [(n, [value])])
  {
    AddHeaderNew(m, name, value);
  }

  /** The values the heading table holds, and the MIME headers it does not hold yet. */
  lemma HeadingGets(mid: string)
    ensures Get(HeadingTable(mid), "Message-ID") == Some([mid])
    ensures Get(HeadingTable(mid), "Success-Report") == Some(["yes"])
    ensures Get(HeadingTable(mid), "Failure-Report") == Some(["yes"])
    ensures Get(HeadingTable(mid), "Content-Disposition").None? && Get(HeadingTable(mid), "Content-Description").None?
  {
    var a := [("Message-ID", [mid]), ("Success-Report", ["yes"])];
    var b := [("Failure-Report", ["yes"])];
    assert HeadingTable(mid) == a + b;
    GetConcat(a, b, "Failure-Report");
  }

  lemma HeadingValues(h: Msg, mid: string)
    requires h.headers == HeadingTable(mid)
    ensures Values(h, "Message-ID") == [mid]
    ensures Values(h, "Success-Report") == ["yes"] && Values(h, "Failure-Report") == ["yes"]
    ensures Values(h, "Content-Disposition") == [] && Values(h, "Content-Description") == []
  {
    HeadingGets(mid);
  }

  /**
   * Lines 103-113: on the heading table, the `addHeader` calls append the
   * disposition, 'inline' by default, and a truthy description.
   */
  lemma DescribedShape(c: Msg, s: Sender)
    requires c.headers == HeadingTable(s.messageId)
    ensures MimeAdded(c, s) == Described(c, s) && Described(c, s).headers == DescribedTable(s)
  {
    var v := Or(s.disposition, "inline");
    var ht := HeadingTable(s.messageId);
    if Truthy(s.description) {
      var w := s.description.value;
      MimeFull(s, ht, v, w);
      DescribedFull(c, s, v, w);
    } else {
      MimePlain(s, ht, v);
      DescribedPlain(c, s, v);
    }
  }

  lemma MimeFull(s: Sender, ht: Assoc<string, seq<string>>, v: string, w: string)
    requires v == Or(s.disposition, "inline") && Truthy(s.description) && w == s.description.value
    ensures ht + MimeTable(s) == ht + [("Content-Disposition", [v])] + [("Content-Description", [w])]
  {
    assert MimeTable(s) == [("Content-Disposition", [v])] + [("Content-Description", [w])];
  }

  lemma MimePlain(s: Sender, ht: Assoc<string, seq<string>>, v: string)
    requires v == Or(s.disposition, "inline") && !Truthy(s.description)
    ensures ht + MimeTable(s) == ht + [("Content-Disposition", [v])]
  {
  }

  lemma DescribedFull(c: Msg, s: Sender, v: string, w: string)
    requires c.headers == HeadingTable(s.messageId)
    requires v == Or(s.disposition, "inline") && Truthy(s.description) && w == s.description.value
    ensures MimeAdded(c, s) == c.(headers := HeadingTable(s.messageId) + [("Content-Disposition", [v])] + [("Content-Description", [w])])
  {
    var d := c.(headers := HeadingTable(s.messageId) + [("Content-Disposition", [v])]);
    AddDisposition(c, s.messageId, v);
    AddDescription(d, s.messageId, v, w);
  }

  lemma DescribedPlain(c: Msg, s: Sender, v: string)
    requires c.headers == HeadingTable(s.messageId)
    requires v == Or(s.disposition, "inline") && !Truthy(s.description)
    ensures MimeAdded(c, s) == c.(headers := HeadingTable(s.messageId) + [("Content-Disposition", [v])])
  {
    AddDisposition(c, s.messageId, v);
  }

  /** The MIME headers of the first chunk: the disposition and a truthy description. */
  function MimeTable(s: Sender): Assoc<string, seq<string>>
  {
    [("Content-Disposition", [Or(s.disposition, "inline")])]
    + if Truthy(s.description) then [("Content-Description", [s.description.value])] else []
  }

  /** The headers of the first chunk: the heading table, then the MIME headers. */
  function DescribedTable(s: Sender): Assoc<string, seq<string>>
  {
    HeadingTable(s.messageId) + MimeTable(s)
  }

  lemma AddDisposition(m: Msg, mid: string, v: string)
    requires m.headers == HeadingTable(mid)
    ensures AddHeader(m, "content-disposition", v) == m.(headers := HeadingTable(mid) + [("Content-Disposition", [v])])
  {
    Unlisted(m.headers, ["Message-ID", "Success-Report", "Failure-Report"], "Content-Disposition");
    HeaderNames.ContentDisposition();
    PlainNames();
    AddNamed(m, "content-disposition", "Content-Disposition", v);
  }

  lemma AddDescription(m: Msg, mid: string, v: string, w: string)
    requires m.headers == HeadingTable(mid) + [("Content-Disposition", [v])]
    ensures AddHeader(m, "content-description", w) == m.(headers := m.headers + [("Content-Description", [w])])
  {
    Unlisted(m.headers, ["Message-ID", "Success-Report", "Failure-Report", "Content-Disposition"],
             "Content-Description");
    HeaderNames.ContentDescription();
    PlainNames();
    AddNamed(m, "content-description", "Content-Description", w);
  }

  /** The first chunk's disposition and description are found under their names. */
  lemma DescribedValues(d: Msg, s: Sender)
    requires d.headers == DescribedTable(s)
    ensures Values(d, "Message-ID") == [s.messageId]
    ensures Values(d, "Success-Report") == ["yes"] && Values(d, "Failure-Report") == ["yes"]
    ensures Values(d, "Content-Disposition") == [Or(s.disposition, "inline")]
    ensures Values(d, "Content-Description") == if Truthy(s.description) then [s.description.value] else []
  {
    var ht, mime := HeadingTable(s.messageId), MimeTable(s);
    assert d.headers == ht + mime;
    HeadingGets(s.messageId);
    MimeGets(s);
    GetConcat(ht, mime, "Message-ID");
    GetConcat(ht, mime, "Success-Report");
    GetConcat(ht, mime, "Failure-Report");
    GetConcat(ht, mime, "Content-Disposition");
    GetConcat(ht, mime, "Content-Description");
  }

  /** The MIME headers of the first chunk hold the disposition and a truthy description. */
  lemma MimeGets(s: Sender)
    ensures var mime := MimeTable(s);
      Get(mime, "Content-Disposition") == Some([Or(s.disposition, "inline")])
      && Get(mime, "Content-Description") == (if Truthy(s.description) then Some([s.description.value]) else None)
  {
  }

  /** The header table of a chunk: the heading, and on the first chunk of a non-empty message the MIME headers. */
  function ChunkTable(s: Sender): Assoc<string, seq<string>>
  {
    if s.size > 0 && s.sentBytes == 0 then DescribedTable(s) else HeadingTable(s.messageId)
  }

  /** The chunk of a sender that is not aborted, before its body and flag are set. */
  lemma RangedShape(s: Sender, toPath: seq<string>, localUri: string, tid: string, chunkSize: int)
    requires !s.aborted
    ensures Mime(Ranged(s, toPath, localUri, tid, chunkSize), s)
         == OutgoingRequest(toPath, localUri, "SEND", tid).(
              headers := ChunkTable(s), byteRange := Some(ByteRange(ChunkStart(s), ChunkEnd(s, chunkSize), s.size)))
  {
    if s.size > 0 && s.sentBytes == 0 {
      FirstShape(s, toPath, localUri, tid, chunkSize);
    } else {
      LaterShape(s, toPath, localUri, tid, chunkSize);
    }
  }

  lemma LaterShape(s: Sender, toPath: seq<string>, localUri: string, tid: string, chunkSize: int)
    requires !(s.size > 0 && s.sentBytes == 0)
    ensures Mime(Ranged(s, toPath, localUri, tid, chunkSize), s)
         == OutgoingRequest(toPath, localUri, "SEND", tid).(
              headers := HeadingTable(s.messageId), byteRange := Some(ByteRange(ChunkStart(s), ChunkEnd(s, chunkSize), s.size)))
  {
    var r := Some(ByteRange(ChunkStart(s), ChunkEnd(s, chunkSize), s.size));
    MimeLater(Heading(s, toPath, localUri, tid).(byteRange := r), s);
  }

  lemma MimeLater(c: Msg, s: Sender)
    requires !(s.size > 0 && s.sentBytes == 0)
    ensures Mime(c, s) == c
  {
  }

  lemma FirstShape(s: Sender, toPath: seq<string>, localUri: string, tid: string, chunkSize: int)
    requires s.size > 0 && s.sentBytes == 0
    ensures Described(Ranged(s, toPath, localUri, tid, chunkSize), s)
         == OutgoingRequest(toPath, localUri, "SEND", tid).(
              headers := DescribedTable(s), byteRange := Some(ByteRange(1, ChunkEnd(s, chunkSize), s.size)))
  {
  }

  /** The chunk of a sender that is not aborted, field by field. */
  lemma ChunkShape(s: Sender, toPath: seq<string>, localUri: string, tid: string, chunkSize: int)
    requires !s.aborted
    ensures var end := ChunkEnd(s, chunkSize);
      Chunk(s, toPath, localUri, tid, chunkSize)
      == Flagged(Payload(OutgoingRequest(toPath, localUri, "SEND", tid).(
           headers := ChunkTable(s), byteRange := Some(ByteRange(ChunkStart(s), end, s.size))), s, end), s, end)
  {
    RangedShape(s, toPath, localUri, tid, chunkSize);
  }

  /**
   * Lines 94-95: an aborted sender sends a '#' chunk carrying only the
   * heading, and stays as it is.
   */
  lemma ChunkAborted(s: Sender, toPath: seq<string>, localUri: string, tid: string, chunkSize: int)
    requires s.aborted
    ensures var c := Chunk(s, toPath, localUri, tid, chunkSize);
      c == OutgoingRequest(toPath, localUri, "SEND", tid).(headers := HeadingTable(s.messageId), flag := Abort)
      && c.byteRange.None? && c.body.None? && c.kind == Request("SEND") && c.toPath == toPath
      && Values(c, "Message-ID") == [s.messageId] && Values(c, "Content-Disposition") == []
    ensures Advanced(s, chunkSize) == s
  {
    HeadingValues(Chunk(s, toPath, localUri, tid, chunkSize), s.messageId);
  }

  /**
   * Lines 97-127: otherwise the chunk covers bytes `sentBytes + 1` to
   * `min(sentBytes + chunkSize, size)` of `size`, and `sentBytes` moves to
   * its end; the flag is '+' exactly when bytes remain after it, and the
   * report timer starts with the last chunk when a timeout handler is set.
   */
  lemma ChunkRange(s: Sender, toPath: seq<string>, localUri: string, tid: string, chunkSize: int)
    requires !s.aborted
    ensures var c, end := Chunk(s, toPath, localUri, tid, chunkSize), ChunkEnd(s, chunkSize);
      end <= s.size && end <= s.sentBytes + chunkSize && (end == s.size || end == s.sentBytes + chunkSize)
      && c.byteRange == Some(ByteRange(ChunkStart(s), end, s.size))
      && (c.flag == Continued <==> end < s.size) && (c.flag == End <==> end >= s.size)
      && c.kind == Request("SEND") && c.tid == tid && c.toPath == toPath && c.fromPath == [localUri]
  {
    ChunkShape(s, toPath, localUri, tid, chunkSize);
  }

  /** Lines 118-127: the sender moves its sent count to the chunk's end and starts the timer with the last chunk. */
  lemma AdvancedState(s: Sender, chunkSize: int)
    requires !s.aborted
    ensures var t, end := Advanced(s, chunkSize), ChunkEnd(s, chunkSize);
      t == s.(sentBytes := end, reportTimer := t.reportTimer)
      && t.reportTimer == (s.reportTimer || (end >= s.size && s.handler))
  {
  }

  /**
   * Lines 101-116: a chunk of a non-empty message carries the payload bytes
   * after the sent ones, as bytes, with the message's content type; an empty
   * message's chunk carries no body and no content type.
   */
  lemma ChunkBody(s: Sender, toPath: seq<string>, localUri: string, tid: string, chunkSize: int)
    requires !s.aborted && s.size == |s.blob| && 0 <= s.sentBytes <= s.size && chunkSize >= 0
    ensures var c, end := Chunk(s, toPath, localUri, tid, chunkSize), ChunkEnd(s, chunkSize);
      (s.size > 0 ==> c.body == Some(Binary(s.blob[s.sentBytes..end])) && c.contentType == s.contentType)
      && (s.size == 0 ==> c.body.None? && c.contentType.None?)
  {
    ChunkShape(s, toPath, localUri, tid, chunkSize);
    var end := ChunkEnd(s, chunkSize);
    SliceOfBlob(s, end);
  }

  lemma SliceOfBlob(s: Sender, end: int)
    requires s.size == |s.blob| && 0 <= s.sentBytes <= end <= s.size
    ensures JsString.BlobSlice(s.blob, s.sentBytes, end) == s.blob[s.sentBytes..end]
  {
  }

  /**
   * Lines 88-92 and 101-113: every chunk carries the Message-ID and asks for
   * both reports; only the first chunk of a non-empty message names the
   * disposition, 'inline' by default, and a truthy description.
   */
  lemma ChunkHeaders(s: Sender, toPath: seq<string>, localUri: string, tid: string, chunkSize: int)
    requires !s.aborted
    ensures var c := Chunk(s, toPath, localUri, tid, chunkSize);
      Values(c, "Message-ID") == [s.messageId]
      && Values(c, "Success-Report") == ["yes"] && Values(c, "Failure-Report") == ["yes"]
      && (s.size > 0 && s.sentBytes == 0 ==> Values(c, "Content-Disposition") == [Or(s.disposition, "inline")])
      && (s.size > 0 && s.sentBytes == 0 ==>
            Values(c, "Content-Description") == if Truthy(s.description) then [s.description.value] else [])
      && (s.size == 0 || s.sentBytes > 0 ==> Values(c, "Content-Disposition") == [] && Values(c, "Content-Description") == [])
  {
    ChunkShape(s, toPath, localUri, tid, chunkSize);
    var c := Chunk(s, toPath, localUri, tid, chunkSize);
    if s.size > 0 && s.sentBytes == 0 {
      DescribedValues(c, s);
    } else {
      HeadingValues(c, s.messageId);
    }
  }

  /**
   * With a positive chunk size, a sender that has not sent everything makes
   * progress with each chunk and never passes the end of the payload; it is
   * send-complete exactly when the chunk reaches the end.
   */
  lemma AdvancedProgress(s: Sender, chunkSize: int)
    requires !s.aborted && 0 <= s.sentBytes <= s.size && chunkSize > 0
    ensures var t := Advanced(s, chunkSize);
      s.sentBytes <= t.sentBytes <= s.size && (s.sentBytes < s.size ==> s.sentBytes < t.sentBytes)
      && (SendComplete(t) <==> t.sentBytes == s.size)
  {
  }

  // ---------------------------------------------------------------------
  // processReport

  lemma {:induction false} MinExists(s: set<int>)
    requires s != {}
    ensures exists k :: k in s && forall j :: j in s ==> k <= j
  {
    if forall y :: y !in s {
      assert false;
    }
    var x :| x in s;
    var rest := s - {x};
    if forall y :: y !in rest {
      forall j | j in s
        ensures x <= j
      {
        assert j !in rest;
      }
    } else {
      var y :| y in rest;
      MinExists(rest);
      var k :| k in rest && forall j :: j in rest ==> k <= j;
      var m := if x < k then x else k;
      forall j | j in s
        ensures m <= j
      {
        if j != x {
          assert j in rest;
        }
      }
      assert m in s;
    }
  }

  /**
   * The smallest key: the first one a `for-in` loop visits. That loop visits
   * ascending order only for array-index names (0 <= k < 2^32 - 1); a report
   * offset beyond 4 GiB is visited after them, in insertion order.
   */
  ghost function MinKey(s: set<int>): (k: int)
    requires s != {}
    ensures k in s && forall j :: j in s ==> k <= j
  {
    MinExists(s);
    var k :| k in s && forall j :: j in s ==> k <= j;
    k
  }

  /** No waiting report starts at or before the byte after the acknowledged prefix. */
  predicate Settled(acked: int, m: map<int, int>)
  {
    forall k :: k in m ==> k > acked + 1
  }

  /**
   * Lines 168-181: the drain of the waiting reports, visiting their start
   * offsets in ascending order: while the smallest one starts at or before
   * `acked + 1`, it extends `acked` to its end, if that is further, and
   * leaves the map and the count.
   */
  ghost function Merged(acked: int, m: map<int, int>, count: int): (r: (int, map<int, int>, int))
    ensures r.0 >= acked && Settled(r.0, r.1)
    ensures r.1.Keys <= m.Keys && forall k :: k in r.1 ==> r.1[k] == m[k]
    ensures r.2 - |r.1| == count - |m|
    decreases |m|
  {
    if m.Keys == {} || MinKey(m.Keys) > acked + 1 then (acked, m, count)
    else
      var k := MinKey(m.Keys);
      Merged(if m[k] > acked then m[k] else acked, m - {k}, count - 1)
  }

  /** `isSendComplete()` */
  predicate SendComplete(s: Sender)
  {
    s.aborted || s.sentBytes >= s.size
  }

  /** `isComplete()` */
  predicate Complete(s: Sender)
  {
    s.aborted || s.ackedBytes >= s.size
  }

  /** `resume()`: sending restarts after the acknowledged prefix, and the waiting reports are dropped. */
  function Resumed(s: Sender): Sender
  {
    s.(sentBytes := s.ackedBytes, reports := map[], reportCount := 0)
  }

  /** Lines 184-187: the report timer stops once the message is complete. */
  function TimerChecked(s: Sender): Sender
  {
    if Complete(s) && s.reportTimer then s.(reportTimer := false) else s
  }

  /** A report for this message: the Message-ID matches. */
  predicate ForThis(s: Sender, report: Msg)
  {
    report.messageId == Some(s.messageId)
  }

  /** A success report: status 200. */
  predicate Succeeded(report: Msg)
  {
    report.status == Some(Status.OK)
  }

  /**
   * `processReport(report)`. Only a success report for this message reads
   * the Byte-Range; every request the parser builds carries one, by default
   * 1--1/-1 (src/Message.js:212).
   */
  ghost function Report(s: Sender, report: Msg): Sender
    requires ForThis(s, report) && Succeeded(report) ==> report.byteRange.Some?
  {
    if !ForThis(s, report) then s
    else if !Succeeded(report) then TimerChecked(s.(aborted := true, remoteAbort := true))
    else
      var r := report.byteRange.value;
      if r.start <= s.ackedBytes + 1 then
        var d := Merged(if r.end > s.ackedBytes then r.end else s.ackedBytes, s.reports, s.reportCount);
        TimerChecked(s.(ackedBytes := d.0, reports := d.1, reportCount := d.2))
      else if s.reportCount > MaxIncontiguousReports then Resumed(s)
      else s.(reports := s.reports[r.start := r.end], reportCount := s.reportCount + 1)
  }

  /** The Byte-Range of a success report for this message, as a pair of its first and last byte. */
  function AckedRange(s: Sender, report: Msg): (r: set<(int, int)>)
    requires ForThis(s, report) && Succeeded(report) ==> report.byteRange.Some?
    ensures |r| <= 1
  {
    if ForThis(s, report) && Succeeded(report)
    then {(report.byteRange.value.start, report.byteRange.value.end)} else {}
  }

  /** Byte `b` lies in one of the ranges `acks` (pairs of first and last byte). */
  ghost predicate Covered(b: int, acks: set<(int, int)>)
  {
    exists p :: p in acks && p.0 <= b <= p.1
  }

  /**
   * What the peer has acknowledged bounds what the sender believes: every
   * byte of the acknowledged prefix, and every waiting report, comes from a
   * success report in `acks`.
   */
  ghost predicate Sound(acked: int, m: map<int, int>, acks: set<(int, int)>)
  {
    (forall b :: 1 <= b <= acked ==> Covered(b, acks)) && (forall k :: k in m ==> (k, m[k]) in acks)
  }

  lemma SoundMore(acked: int, m: map<int, int>, acks: set<(int, int)>, more: set<(int, int)>)
    requires Sound(acked, m, acks)
    ensures Sound(acked, m, acks + more)
  {
    forall b | 1 <= b <= acked
      ensures Covered(b, acks + more)
    {
      assert Covered(b, acks);
      var p :| p in acks && p.0 <= b <= p.1;
      assert p in acks + more;
    }
  }

  /** The drain only ever extends the prefix with waiting reports, so it keeps `Sound`. */
  lemma {:induction false} MergedSound(acked: int, m: map<int, int>, count: int, acks: set<(int, int)>)
    requires Sound(acked, m, acks)
    ensures Sound(Merged(acked, m, count).0, Merged(acked, m, count).1, acks)
    decreases |m|
  {
    if m.Keys != {} && MinKey(m.Keys) <= acked + 1 {
      var k := MinKey(m.Keys);
      var a := if m[k] > acked then m[k] else acked;
      assert (k, m[k]) in acks;
      forall b | 1 <= b <= a
        ensures Covered(b, acks)
      {
        if b > acked {
          assert (k, m[k]) in acks && k <= b <= m[k];
        }
      }
      MergedSound(a, m - {k}, count - 1, acks);
    }
  }

  /** A drain over reports that are all beyond the gap changes nothing. */
  lemma MergedSettled(acked: int, m: map<int, int>, count: int)
    requires Settled(acked, m)
    ensures Merged(acked, m, count) == (acked, m, count)
  {
    if m.Keys != {} {
      var k := MinKey(m.Keys);
      assert k in m;
    }
  }

  /**
   * Lines 153-181: a report that reaches the acknowledged prefix extends it
   * to at least the report's end, and afterwards no waiting report touches
   * the prefix any more; the waiting reports left are some of the old ones.
   */
  lemma ReportContiguous(s: Sender, report: Msg)
    requires ForThis(s, report) && Succeeded(report) && report.byteRange.Some?
    requires report.byteRange.value.start <= s.ackedBytes + 1
    ensures var t := Report(s, report);
      && t.ackedBytes >= s.ackedBytes && t.ackedBytes >= report.byteRange.value.end
      && Settled(t.ackedBytes, t.reports)
      && t.reports.Keys <= s.reports.Keys && (forall k :: k in t.reports ==> t.reports[k] == s.reports[k])
      && t.reportCount - |t.reports| == s.reportCount - |s.reports|
      && t == s.(ackedBytes := t.ackedBytes, reports := t.reports, reportCount := t.reportCount,
                 reportTimer := t.reportTimer)
  {
  }

  /** Line 153: with nothing waiting, a report reaching the prefix acknowledges exactly up to its end. */
  lemma ReportInOrder(s: Sender, report: Msg)
    requires ForThis(s, report) && Succeeded(report) && report.byteRange.Some?
    requires report.byteRange.value.start <= s.ackedBytes + 1 <= report.byteRange.value.end
    requires s.reports == map[]
    ensures Report(s, report).ackedBytes == report.byteRange.value.end
  {
    MergedSettled(report.byteRange.value.end, map[], s.reportCount);
  }

  /**
   * Lines 157-166: a report beyond the gap waits under its start offset,
   * replacing a report with the same start, and the count goes up; once
   * the count exceeds 16 it is dropped and the sender resumes instead.
   */
  lemma ReportGapped(s: Sender, report: Msg)
    requires ForThis(s, report) && Succeeded(report) && report.byteRange.Some?
    requires report.byteRange.value.start > s.ackedBytes + 1
    ensures s.reportCount <= MaxIncontiguousReports ==>
      Report(s, report) == s.(reports := s.reports[report.byteRange.value.start := report.byteRange.value.end],
                              reportCount := s.reportCount + 1)
    ensures s.reportCount > MaxIncontiguousReports ==>
      Report(s, report) == s.(sentBytes := s.ackedBytes, reports := map[], reportCount := 0)
  {
  }

  /** Lines 143-146: a report for another message is ignored. */
  lemma ReportOther(s: Sender, report: Msg)
    requires !ForThis(s, report)
    ensures Report(s, report) == s
  {
  }

  /** Lines 148-151, 184-187: a failure report aborts the sender and stops its report timer. */
  lemma ReportFailed(s: Sender, report: Msg)
    requires ForThis(s, report) && !Succeeded(report)
    ensures Report(s, report) == s.(aborted := true, remoteAbort := true, reportTimer := false)
    ensures SendComplete(Report(s, report)) && Complete(Report(s, report))
  {
  }

  /** `ackedBytes` never decreases, and the payload and its identity never change. */
  lemma ReportMonotone(s: Sender, report: Msg)
    requires ForThis(s, report) && Succeeded(report) ==> report.byteRange.Some?
    ensures Report(s, report).ackedBytes >= s.ackedBytes
    ensures var t := Report(s, report);
      t.messageId == s.messageId && t.blob == s.blob && t.size == s.size && t.handler == s.handler
  {
    if ForThis(s, report) && Succeeded(report) {
      if report.byteRange.value.start <= s.ackedBytes + 1 {
        ReportMerged(s, report);
      } else {
        ReportGapped(s, report);
      }
    }
  }

  /** A report for this message that is not left waiting stops a running report timer on completion. */
  lemma ReportStopsTimer(s: Sender, report: Msg)
    requires ForThis(s, report)
    requires Succeeded(report) ==> report.byteRange.Some? && report.byteRange.value.start <= s.ackedBytes + 1
    ensures Complete(Report(s, report)) ==> !Report(s, report).reportTimer
    ensures !Complete(Report(s, report)) ==> Report(s, report).reportTimer == s.reportTimer
  {
  }

  /**
   * The count of waiting reports never falls below the number stored. It
   * can exceed it: a second gapped report with the same start replaces the
   * first but is counted again.
   */
  lemma ReportCounted(s: Sender, report: Msg)
    requires ForThis(s, report) && Succeeded(report) ==> report.byteRange.Some?
    requires |s.reports| <= s.reportCount
    ensures |Report(s, report).reports| <= Report(s, report).reportCount
  {
    if ForThis(s, report) && Succeeded(report) {
      var r := report.byteRange.value;
      if r.start <= s.ackedBytes + 1 {
        ReportMerged(s, report);
      } else {
        ReportGapped(s, report);
        if s.reportCount <= MaxIncontiguousReports {
          assert s.reports[r.start := r.end].Keys == s.reports.Keys + {r.start};
        }
      }
    }
  }

  /** The prefix the contiguous branch starts its drain from. */
  function Extended(acked: int, r: ByteRange): int
  {
    if r.end > acked then r.end else acked
  }

  /** Lines 153-181, 184-187 as one step: the contiguous branch is the drain followed by the timer check. */
  lemma ReportMerged(s: Sender, report: Msg)
    requires ForThis(s, report) && Succeeded(report) && report.byteRange.Some?
    requires report.byteRange.value.start <= s.ackedBytes + 1
    ensures var t := Report(s, report);
      var d := Merged(Extended(s.ackedBytes, report.byteRange.value), s.reports, s.reportCount);
      && t.ackedBytes == d.0 && t.reports == d.1 && t.reportCount == d.2
      && t == s.(ackedBytes := d.0, reports := d.1, reportCount := d.2, reportTimer := t.reportTimer)
  {
  }

  /**
   * Lines 143-187: `processReport` keeps `Sound` once the report just
   * received is counted among the acknowledgements, so the sender never
   * believes in a byte that no success report covered.
   */
  lemma ReportSound(s: Sender, report: Msg, acks: set<(int, int)>)
    requires ForThis(s, report) && Succeeded(report) ==> report.byteRange.Some?
    requires Sound(s.ackedBytes, s.reports, acks)
    ensures Sound(Report(s, report).ackedBytes, Report(s, report).reports, acks + AckedRange(s, report))
  {
    var all := acks + AckedRange(s, report);
    SoundMore(s.ackedBytes, s.reports, acks, AckedRange(s, report));
    if !ForThis(s, report) {
      ReportOther(s, report);
    } else if !Succeeded(report) {
      ReportFailed(s, report);
    } else if report.byteRange.value.start > s.ackedBytes + 1 {
      GappedSound(s, report, all);
    } else {
      var r := report.byteRange.value;
      assert (r.start, r.end) in all;
      var a := Extended(s.ackedBytes, r);
      forall b | 1 <= b <= a
        ensures Covered(b, all)
      {
        if b > s.ackedBytes {
          assert (r.start, r.end) in all && r.start <= b <= r.end;
        }
      }
      MergedSound(a, s.reports, s.reportCount, all);
      ReportMerged(s, report);
    }
  }

  lemma GappedSound(s: Sender, report: Msg, all: set<(int, int)>)
    requires ForThis(s, report) && Succeeded(report) && report.byteRange.Some?
    requires report.byteRange.value.start > s.ackedBytes + 1
    requires (report.byteRange.value.start, report.byteRange.value.end) in all
    requires Sound(s.ackedBytes, s.reports, all)
    ensures Sound(Report(s, report).ackedBytes, Report(s, report).reports, all)
  {
    ReportGapped(s, report);
  }

  // ---------------------------------------------------------------------
  // a whole message

  /**
   * What a scheduler takes from one sender: a chunk for each transaction id
   * in `tids`, calling `getNextChunk()` and stopping after the chunk that
   * leaves it send-complete (src/RelayConnection.js:254-262).
   */
  function Transmit(s: Sender, toPath: seq<string>, localUri: string, tids: seq<string>, chunkSize: int)
    : (seq<Msg>, Sender)
    decreases |tids|
  {
    if tids == [] then ([], s)
    else
      var t := Advanced(s, chunkSize);
      var rest := if SendComplete(t) then ([], t) else Transmit(t, toPath, localUri, tids[1..], chunkSize);
      ([Chunk(s, toPath, localUri, tids[0], chunkSize)] + rest.0, rest.1)
  }

  /**
   * The chunks `cs` carry the bytes of `p` from offset `from` (0-based) to
   * its end, in order: each chunk's Byte-Range starts right after the
   * previous one, its total is `|p|`, its body holds the bytes of its range,
   * and every chunk but the last is flagged '+', the last '$'.
   */
  ghost predicate Carries(cs: seq<Msg>, p: string, from: int)
    decreases |cs|
  {
    cs != [] &&
    var c := cs[0];
    c.byteRange.Some? && c.byteRange.value.start == from + 1 && c.byteRange.value.total == |p|
    && 0 <= from < c.byteRange.value.end <= |p| && c.body == Some(Binary(p[from..c.byteRange.value.end]))
    && if |cs| == 1 then c.flag == End && c.byteRange.value.end == |p|
       else c.flag == Continued && Carries(cs[1..], p, c.byteRange.value.end)
  }

  /** The bytes a list of chunks carries, one body after another. */
  function Octets(cs: seq<Msg>): string
  {
    if cs == [] then "" else (if cs[0].body.Some? then cs[0].body.value.Octets() else "") + Octets(cs[1..])
  }

  lemma {:induction false} CarriesOctets(cs: seq<Msg>, p: string, from: int)
    requires Carries(cs, p, from)
    ensures Octets(cs) == p[from..]
    decreases |cs|
  {
    var end := cs[0].byteRange.value.end;
    if |cs| == 1 {
      assert Octets(cs[1..]) == "";
    } else {
      CarriesOctets(cs[1..], p, end);
      assert p[from..end] + p[end..] == p[from..];
    }
  }

  /** One chunk of a sender with bytes left to send, as `Carries` describes it. */
  lemma ChunkCarries(s: Sender, toPath: seq<string>, localUri: string, tid: string, chunkSize: int)
    requires !s.aborted && s.size == |s.blob| && 0 <= s.sentBytes < s.size && chunkSize > 0
    ensures var c, t, end := Chunk(s, toPath, localUri, tid, chunkSize), Advanced(s, chunkSize), ChunkEnd(s, chunkSize);
      && c.byteRange == Some(ByteRange(ChunkStart(s), end, s.size)) && s.sentBytes < end <= |s.blob|
      && c.body == Some(Binary(s.blob[s.sentBytes..end]))
      && (end == |s.blob| ==> c.flag == End) && (end < |s.blob| ==> c.flag == Continued)
      && t.sentBytes == end && t.blob == s.blob && t.size == s.size && !t.aborted && t.ackedBytes == s.ackedBytes
      && (SendComplete(t) <==> end == |s.blob|)
  {
    ChunkRange(s, toPath, localUri, tid, chunkSize);
    ChunkBody(s, toPath, localUri, tid, chunkSize);
    AdvancedState(s, chunkSize);
  }

  /**
   * A sender with bytes left to send and enough transaction ids sends the
   * rest of its payload: the chunks carry exactly the bytes after
   * `sentBytes`, in order, the last one flagged '$', and the sender ends
   * send-complete with everything sent.
   */
  lemma {:induction false} TransmitAll(s: Sender, toPath: seq<string>, localUri: string, tids: seq<string>,
                                       chunkSize: int)
    requires !s.aborted && s.size == |s.blob| && 0 <= s.sentBytes < s.size
    requires chunkSize > 0 && |tids| * chunkSize >= s.size - s.sentBytes
    ensures var out := Transmit(s, toPath, localUri, tids, chunkSize);
      Carries(out.0, s.blob, s.sentBytes) && Octets(out.0) == s.blob[s.sentBytes..]
      && SendComplete(out.1) && out.1.sentBytes == s.size && out.1.ackedBytes == s.ackedBytes
      && |out.0| <= |tids|
    decreases |tids|
  {
    var out := Transmit(s, toPath, localUri, tids, chunkSize);
    var c := Chunk(s, toPath, localUri, tids[0], chunkSize);
    var t := Advanced(s, chunkSize);
    ChunkCarries(s, toPath, localUri, tids[0], chunkSize);
    if SendComplete(t) {
      assert out.0 == [c];
    } else {
      var rest := Transmit(t, toPath, localUri, tids[1..], chunkSize);
      assert ChunkEnd(s, chunkSize) == s.sentBytes + chunkSize;
      FewerIds(tids, chunkSize, s.size - s.sentBytes);
      TransmitAll(t, toPath, localUri, tids[1..], chunkSize);
      assert out.0 == [c] + rest.0 && out.0[1..] == rest.0;
    }
    CarriesOctets(out.0, s.blob, s.sentBytes);
  }

  lemma FewerIds(tids: seq<string>, chunkSize: int, left: int)
    requires tids != [] && |tids| * chunkSize >= left
    ensures |tids[1..]| * chunkSize >= left - chunkSize
  {
    assert |tids| * chunkSize == |tids[1..]| * chunkSize + chunkSize;
  }

  // ---------------------------------------------------------------------
  // examples (test/ChunkSender.js)

  /** A twelve-byte text message, "string chunk", as the constructor builds it. */
  function Sample(): Sender
  {
    Fresh("m", StringContent("string chunk"), Some("text/plain"), None, None)
  }

  /** A report for message `mid` with status `code` and the given Byte-Range. */
  function SampleReport(mid: string, code: int, start: int, end: int, total: int): Msg
  {
    IncomingRequest("r", "REPORT").(messageId := Some(mid), status := Some(code),
                                    byteRange := Some(ByteRange(start, end, total)))
  }

  lemma SampleFresh()
    ensures Sample() == Sender("m", "string chunk", Some("text/plain"), None, None, 12, 0, 0, map[], 0,
                               false, false, false, false)
  {
  }

  /**
   * Test "Multi-chunk send": with a chunk size of 6 the message goes out as
   * bytes 1-6/12 with '+' and 7-12/12 with '$'; the sender is then
   * send-complete but not complete until a report for 1-12 arrives.
   */
  lemma MultiChunkSend(toPath: seq<string>, localUri: string, tid1: string, tid2: string)
    ensures var s0 := Sample();
      var c1, s1 := Chunk(s0, toPath, localUri, tid1, 6), Advanced(s0, 6);
      var c2, s2 := Chunk(s1, toPath, localUri, tid2, 6), Advanced(s1, 6);
      && c1.byteRange == Some(ByteRange(1, 6, 12)) && c1.flag == Continued
      && c1.body == Some(Binary("string")) && c1.contentType == Some("text/plain") && !SendComplete(s1)
      && c2.byteRange == Some(ByteRange(7, 12, 12)) && c2.flag == End
      && c2.body == Some(Binary(" chunk")) && SendComplete(s2) && !Complete(s2)
      && Complete(Report(s2, SampleReport("m", Status.OK, 1, 12, 12)))
  {
    SampleFresh();
    assert Sample() == SampleSent().(sentBytes := 0);
    MultiChunkFirst(toPath, localUri, tid1);
    MultiChunkSecond(toPath, localUri, tid2);
    ReportInOrder(SampleSent(), SampleReport("m", Status.OK, 1, 12, 12));
  }

  lemma MultiChunkFirst(toPath: seq<string>, localUri: string, tid: string)
    ensures var s0 := SampleSent().(sentBytes := 0);
      var c := Chunk(s0, toPath, localUri, tid, 6);
      && c.byteRange == Some(ByteRange(1, 6, 12)) && c.flag == Continued
      && c.body == Some(Binary("string")) && c.contentType == Some("text/plain")
      && Advanced(s0, 6) == SampleSent().(sentBytes := 6) && !SendComplete(Advanced(s0, 6))
  {
    SampleSlices();
    var s0 := SampleSent().(sentBytes := 0);
    ChunkRange(s0, toPath, localUri, tid, 6);
    ChunkBody(s0, toPath, localUri, tid, 6);
  }

  lemma MultiChunkSecond(toPath: seq<string>, localUri: string, tid: string)
    ensures var s1 := SampleSent().(sentBytes := 6);
      var c := Chunk(s1, toPath, localUri, tid, 6);
      && c.byteRange == Some(ByteRange(7, 12, 12)) && c.flag == End && c.body == Some(Binary(" chunk"))
      && Advanced(s1, 6) == SampleSent() && SendComplete(SampleSent()) && !Complete(SampleSent())
  {
    SampleSlices();
    var s1 := SampleSent().(sentBytes := 6);
    ChunkRange(s1, toPath, localUri, tid, 6);
    ChunkBody(s1, toPath, localUri, tid, 6);
  }

  lemma SampleSlices()
    ensures "string chunk"[0..6] == "string" && "string chunk"[6..12] == " chunk"
  {
  }

  /** Test "Empty send": one chunk 1-0/0 without a body, after which the sender is send-complete. */
  lemma EmptySend(mid: string, toPath: seq<string>, localUri: string, tid: string, chunkSize: int)
    requires chunkSize >= 0
    ensures var s := Fresh(mid, NoContent, None, None, None);
      var c := Chunk(s, toPath, localUri, tid, chunkSize);
      c.byteRange == Some(ByteRange(1, 0, 0)) && c.body.None? && c.flag == End
      && SendComplete(Advanced(s, chunkSize))
  {
    var s := Fresh(mid, NoContent, None, None, None);
    ChunkRange(s, toPath, localUri, tid, chunkSize);
    ChunkBody(s, toPath, localUri, tid, chunkSize);
  }

  /**
   * Test "Local abort": after `abort()` the next chunk carries '#', the
   * sender is send-complete and complete, and the abort is not remote.
   */
  lemma LocalAbort(toPath: seq<string>, localUri: string, tid1: string, tid2: string)
    ensures var s1 := Advanced(Sample(), 6).(aborted := true);
      Chunk(s1, toPath, localUri, tid2, 6).flag == Abort
      && SendComplete(Advanced(s1, 6)) && Complete(Advanced(s1, 6)) && !Advanced(s1, 6).remoteAbort
  {
    SampleFresh();
    ChunkAborted(Advanced(Sample(), 6).(aborted := true), toPath, localUri, tid2, 6);
  }

  /** Test "Remote abort": a 413 report for the message makes the sender complete by remote abort. */
  lemma RemoteAbort()
    ensures var t := Report(Advanced(Sample(), 6), SampleReport("m", Status.STOP_SENDING, 1, -1, -1));
      SendComplete(t) && Complete(t) && t.remoteAbort
  {
    SampleFresh();
    ReportFailed(Advanced(Sample(), 6), SampleReport("m", Status.STOP_SENDING, 1, -1, -1));
  }

  /** The whole sample message sent in one chunk, before any report. */
  function SampleSent(): Sender
  {
    Sender("m", "string chunk", Some("text/plain"), None, None, 12, 12, 0, map[], 0,
           false, false, false, false)
  }

  /**
   * Test "Out-of-order reports": reports for 1-3, 7-9, 4-6 and 10-12 arrive
   * in that order; 7-9 waits until 4-6 closes the gap, and the sender is
   * complete only after the last.
   */
  lemma OutOfOrderReports()
    ensures Advanced(Sample(), 2048) == SampleSent()
    ensures var t1 := Report(SampleSent(), SampleReport("m", Status.OK, 1, 3, 12));
      t1 == SampleSent().(ackedBytes := 3) && !Complete(t1)
    ensures var t2 := Report(SampleSent().(ackedBytes := 3), SampleReport("m", Status.OK, 7, 9, 12));
      t2 == SampleSent().(ackedBytes := 3, reports := map[7 := 9], reportCount := 1) && !Complete(t2)
    ensures var t3 := Report(SampleSent().(ackedBytes := 3, reports := map[7 := 9], reportCount := 1),
                             SampleReport("m", Status.OK, 4, 6, 12));
      t3 == SampleSent().(ackedBytes := 9) && !Complete(t3)
    ensures var t4 := Report(SampleSent().(ackedBytes := 9), SampleReport("m", Status.OK, 10, 12, 12));
      t4 == SampleSent().(ackedBytes := 12) && Complete(t4)
  {
    SampleFresh();
    ReportInOrder(SampleSent(), SampleReport("m", Status.OK, 1, 3, 12));
    ReportMerged(SampleSent(), SampleReport("m", Status.OK, 1, 3, 12));
    ReportGapped(SampleSent().(ackedBytes := 3), SampleReport("m", Status.OK, 7, 9, 12));
    SampleDrain();
    ReportInOrder(SampleSent().(ackedBytes := 9), SampleReport("m", Status.OK, 10, 12, 12));
    ReportMerged(SampleSent().(ackedBytes := 9), SampleReport("m", Status.OK, 10, 12, 12));
  }

  /** Report 4-6 reaches the prefix 1-3, and the drain then takes the waiting 7-9. */
  lemma SampleDrain()
    ensures Report(SampleSent().(ackedBytes := 3, reports := map[7 := 9], reportCount := 1),
                   SampleReport("m", Status.OK, 4, 6, 12)) == SampleSent().(ackedBytes := 9)
  {
    var s := SampleSent().(ackedBytes := 3, reports := map[7 := 9], reportCount := 1);
    var report := SampleReport("m", Status.OK, 4, 6, 12);
    ReportMerged(s, report);
    assert MinKey(map[7 := 9].Keys) == 7;
    assert map[7 := 9] - {7} == map[];
    assert Merged(6, map[7 := 9], 1) == Merged(9, map[], 0);
  }

  // ---------------------------------------------------------------------
  // the object

  /**
   * One visit of the draining pass: the smallest start still to visit is
   * merged when it is contiguous with the acknowledged prefix, and skipped
   * otherwise.
   */
  method DrainStep(acked0: int, m0: map<int, int>, count0: int, pending0: set<int>, ghost goal: (int, map<int, int>, int))
    returns (acked: int, m: map<int, int>, count: int, pending: set<int>, took: bool)
    requires Pass(acked0, m0, pending0) && pending0 != {}
    requires Leads(acked0, m0, count0, goal)
    ensures Pass(acked, m, pending) && Leads(acked, m, count, goal)
    ensures |pending| < |pending0|
    ensures if took then |m| == |m0| - 1 else m == m0
  {
    MinExists(pending0);
    var k :| k in pending0 && forall j :: j in pending0 ==> k <= j;
    if k <= acked0 + 1 {
      PassTakes(acked0, m0, count0, pending0, k, goal);
      acked := if m0[k] > acked0 then m0[k] else acked0;
      m := m0 - {k};
      count := count0 - 1;
      took := true;
    } else {
      PassSkips(acked0, m0, pending0, k);
      acked, m, count, took := acked0, m0, count0, false;
    }
    pending := pending0 - {k};
  }

  /**
   * The draining loop of `processReport()`: passes over the stored reports
   * in ascending start order, merging every one that starts at or before
   * the byte after the acknowledged prefix, and repeats the pass while one
   * of them was merged.
   */
  method Drain(acked0: int, m0: map<int, int>, count0: int) returns (acked: int, m: map<int, int>, count: int)
    ensures Settled(acked, m)
    ensures (acked, m, count) == Merged(acked0, m0, count0)
  {
    acked, m, count := acked0, m0, count0;
    ghost var goal := Merged(acked, m, count);
    var appended := true;
    while appended
      invariant Leads(acked, m, count, goal)
      invariant !appended ==> Settled(acked, m)
      decreases |m|, appended
    {
      appended := false;
      var before := |m|;
      var pending := m.Keys;
      PassStarts(acked, m);
      while pending != {}
        invariant Pass(acked, m, pending)
        invariant Leads(acked, m, count, goal)
        invariant |m| <= before && (appended <==> |m| < before)
        decreases |pending|
      {
        var took;
        acked, m, count, pending, took := DrainStep(acked, m, count, pending, goal);
        if took {
          appended := true;
        }
      }
      PassEnds(acked, m);
    }
    LeadsSettled(acked, m, count, goal);
  }

  /**
   * What a sender reads from the session that owns it when it cuts a chunk:
   * the session's To-Path, which the session replaces once the far end's
   * path is known, and its local URI.
   */
  class Endpoint {
    var toPath: seq<string>
    const localUri: string

    /** A session's addressing before any To-Path is known. */
    constructor (localUri: string)
      ensures toPath == [] && this.localUri == localUri
    {
      toPath := [];
      this.localUri := localUri;
    }
  }

  /**
   * The fields of a sender as the source updates them in place. The
   * payload, its description and the chunk size (`config.chunkSize`, shared
   * with the session) never change.
   */
  class ChunkSender {
    const session: Endpoint
    const messageId: string
    const blob: string
    const contentType: Option<string>
    const disposition: Option<string>
    const description: Option<string>
    const size: int
    const chunkSize: int
    var sentBytes: int
    var ackedBytes: int
    var reports: map<int, int>
    var reportCount: int
    var reportTimer: bool
    var handler: bool
    var aborted: bool
    var remoteAbort: bool

    /** The sender's fields as a value. */
    function State(): Sender
      reads this
    {
      Sender(messageId, blob, contentType, disposition, description, size, sentBytes, ackedBytes,
        reports, reportCount, reportTimer, handler, aborted, remoteAbort)
    }

    /** `new ChunkSender(session, body, contentType, disposition, description)`; `mid` is the new Message-ID. */
    constructor (session: Endpoint, mid: string, body: Content, contentType: Option<string>,
                 disposition: Option<string>, description: Option<string>, chunkSize: int)
      ensures State() == Fresh(mid, body, contentType, disposition, description)
      ensures this.session == session && this.chunkSize == chunkSize
    {
      this.session := session;
      var p := BodyParts(body, contentType, disposition);
      messageId := mid;
      blob := p.0;
      this.contentType := p.1;
      this.disposition := p.2;
      this.description := description;
      size := |p.0|;
      this.chunkSize := chunkSize;
      sentBytes := 0;
      ackedBytes := 0;
      reports := map[];
      reportCount := 0;
      reportTimer := false;
      handler := false;
      aborted := false;
      remoteAbort := false;
    }

    /** Setting or clearing `onReportTimeout`. */
    method SetReportHandler(installed: bool)
      modifies this
      ensures State() == old(State()).(handler := installed)
    {
      handler := installed;
    }

    /**
     * `getNextChunk()`: the next SEND request, addressed with the session's
     * current To-Path and local URI and the new transaction id `tid`; the
     * sent count then moves to the chunk's end, and the report timer starts
     * with the last chunk.
     */
    method GetNextChunk(tid: string) returns (chunk: Msg)
      modifies this
      ensures chunk == Chunk(old(State()), session.toPath, session.localUri, tid, chunkSize)
      ensures State() == Advanced(old(State()), chunkSize)
    {
      chunk := BuildChunk(session.toPath, session.localUri, tid);
      if aborted {
        return;
      }
      var end := ChunkEnd(State(), chunkSize);
      if end >= size && handler {
        reportTimer := true;
      }
      sentBytes := end;
    }

    /** Lines 85-119: the chunk `getNextChunk()` builds from the current fields. */
    method BuildChunk(toPath: seq<string>, localUri: string, tid: string) returns (chunk: Msg)
      ensures chunk == Chunk(State(), toPath, localUri, tid, chunkSize)
    {
      var s := State();
      chunk := Heading(s, toPath, localUri, tid);
      if aborted {
        chunk := chunk.(flag := Message.Abort);
        return;
      }
      var end := ChunkEnd(s, chunkSize);
      chunk := chunk.(byteRange := Some(ByteRange(ChunkStart(s), end, size)));
      chunk := Payload(Mime(chunk, s), s, end);
      if end < size {
        chunk := chunk.(flag := Continued);
      }
    }

    /** `processReport(report)`. */
    method ProcessReport(report: Msg)
      requires ForThis(State(), report) && Succeeded(report) ==> report.byteRange.Some?
      modifies this
      ensures State() == Report(old(State()), report)
    {
      if report.messageId != Some(messageId) {
        return;
      }
      if report.status != Some(Status.OK) {
        Abort();
        remoteAbort := true;
      } else {
        var r := report.byteRange.value;
        if r.start <= ackedBytes + 1 {
          if r.end > ackedBytes {
            ackedBytes := r.end;
          }
        } else if reportCount > MaxIncontiguousReports {
          Resume();
          return;
        } else {
          reports := reports[r.start := r.end];
          reportCount := reportCount + 1;
          return;
        }
        DrainReports();
      }
      CheckTimer();
    }

    /** The end of `processReport`: once the message is complete, its report timer is no longer wanted. */
    method CheckTimer()
      modifies this
      ensures State() == TimerChecked(old(State()))
    {
      var complete := IsComplete();
      if complete && reportTimer {
        reportTimer := false;
      }
    }

    /**
     * Lines 168-181: passes over the waiting reports in ascending order of
     * their start, taking every one that has become contiguous, until a pass
     * takes none.
     */
    method DrainReports()
      modifies this
      ensures State() == old(State()).(ackedBytes := ackedBytes, reports := reports, reportCount := reportCount)
      ensures (ackedBytes, reports, reportCount) == Merged(old(ackedBytes), old(reports), old(reportCount))
    {
      ackedBytes, reports, reportCount := Drain(ackedBytes, reports, reportCount);
    }

    /** `isSendComplete()` */
    method IsSendComplete() returns (b: bool)
      ensures b == SendComplete(State())
    {
      return aborted || sentBytes >= size;
    }

    /** `isComplete()` */
    method IsComplete() returns (b: bool)
      ensures b == Complete(State())
    {
      return aborted || ackedBytes >= size;
    }

    /** `resume()` */
    method Resume()
      modifies this
      ensures State() == Resumed(old(State()))
    {
      sentBytes := ackedBytes;
      reports := map[];
      reportCount := 0;
    }

    /** `abort()` */
    method Abort()
      modifies this
      ensures State() == old(State()).(aborted := true)
    {
      aborted := true;
    }

    /** `sender.remoteAbort = true`, as a session does on a failure response. */
    method MarkRemoteAbort()
      modifies this
      ensures State() == old(State()).(remoteAbort := true)
    {
      remoteAbort := true;
    }
  }

  /**
   * During one `for-in` pass over the waiting reports, `pending` are the
   * starts still to visit: every start already visited and kept is smaller
   * than all of them and lies beyond the acknowledged prefix.
   */
  ghost predicate Pass(acked: int, m: map<int, int>, pending: set<int>)
  {
    pending <= m.Keys
    && (forall j, k :: j in m && j !in pending && k in pending ==> j < k)
    && (forall j :: j in m && j !in pending ==> j > acked + 1)
  }

  lemma PassStarts(acked: int, m: map<int, int>)
    ensures Pass(acked, m, m.Keys)
  {
  }

  /** A pass that has visited every start leaves the waiting reports settled. */
  lemma PassEnds(acked: int, m: map<int, int>)
    requires Pass(acked, m, {})
    ensures Settled(acked, m)
  {
  }

  /**
   * The smallest start still to visit, when it is contiguous, is the
   * smallest waiting start overall, so taking it is a step of `Merged`.
   */
  lemma PassTakes(acked: int, m: map<int, int>, count: int, pending: set<int>, k: int, goal: (int, map<int, int>, int))
    requires Pass(acked, m, pending) && k in pending && (forall j :: j in pending ==> k <= j)
    requires k <= acked + 1
    requires Leads(acked, m, count, goal)
    ensures var a := if m[k] > acked then m[k] else acked;
      && Pass(a, m - {k}, pending - {k}) && |m - {k}| == |m| - 1
      && Leads(a, m - {k}, count - 1, goal)
  {
    assert m.Keys == pending by {
      forall j | j in m
        ensures j in pending
      {
        if j !in pending {
          assert false;
        }
      }
    }
    assert MinKey(m.Keys) == k;
  }

  /** A start beyond the prefix is skipped; later starts are larger and are skipped too. */
  lemma PassSkips(acked: int, m: map<int, int>, pending: set<int>, k: int)
    requires Pass(acked, m, pending) && k in pending && (forall j :: j in pending ==> k <= j)
    requires k > acked + 1
    ensures Pass(acked, m, pending - {k})
  {
  }

  /** The drain started from `acked`, `m` and `count` ends in `goal`. */
  ghost predicate Leads(acked: int, m: map<int, int>, count: int, goal: (int, map<int, int>, int))
  {
    Merged(acked, m, count) == goal
  }

  lemma LeadsSettled(acked: int, m: map<int, int>, count: int, goal: (int, map<int, int>, int))
    requires Leads(acked, m, count, goal) && Settled(acked, m)
    ensures goal == (acked, m, count)
  {
    MergedSettled(acked, m, count);
  }
}
