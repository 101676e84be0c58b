/**
 * Encoding and parsing together (src/Message.js `encode`, src/parser.js
 * `parseMessage`): what `parseMessage` makes of the octets an outgoing
 * request or response encodes to.
 *
 * `parseMessage` recovers the transaction id, the method or status, both
 * paths, every header (its values joined by ' '), the content type, the
 * body and the flag, then runs its known-header parsers over the headers;
 * the conditions under which this holds are collected in `Sendable` and
 * `Answerable`.
 */
module RoundTrip {
  import opened Wrappers
  import opened JsString
  import opened Assoc
  import opened Message
  import opened Parser
  import Util
  import HeaderNames

  // ---------------------------------------------------------------------
  // what a message must satisfy to read back

  /** A token of the first line, or a URI of a path: non-empty, without white space. */
  predicate Word(s: string)
  {
    |s| > 0 && forall i :: 0 <= i < |s| ==> !IsSpace(s[i])
  }

  /** A path: at least one URI, each a word. */
  predicate Words(p: seq<string>)
  {
    |p| > 0 && forall i :: 0 <= i < |p| ==> Word(p[i])
  }

  /**
   * A header line that `getNextHeader` reads back as written: a trimmed name
   * without ':' or CR that does not start with '-', and a trimmed value
   * without CR.
   */
  predicate LineSafe(h: (string, seq<string>))
  {
    var v := Join(h.1, " ");
    |h.0| > 0 && h.0[0] != '-' && Trimmed(h.0) && ':' !in h.0 && '\r' !in h.0
    && Trimmed(v) && '\r' !in v
  }

  /** A header name that `addHeader` stores unchanged in the header table. */
  predicate Plain(n: string)
  {
    Util.Normalise(n) == n && !Special(n)
  }

  predicate HeadersSafe(h: Assoc<string, seq<string>>)
  {
    UniqueKeys(h) && forall i :: 0 <= i < |h| ==> LineSafe(h[i]) && Plain(h[i].0)
  }

  /**
   * The first CRLF and end-line prefix after the body is the one `encode`
   * writes: the body holds no CRLF + '-------' + tid, not even one that runs
   * into the end-line. This is more than `encode` checks, which looks only
   * for the end-line with the message's own flag and without the CRLF.
   */
  predicate BodySafe(b: string, eln: string)
  {
    IndexOf(b + CRLF + eln, CRLF + eln, 0) == |b|
  }

  /** An outgoing request whose encoding `parseMessage` reads back. */
  predicate Sendable(s: Msg)
  {
    s.kind.Request? && Word(s.tid) && Word(s.kind.verb) && !IsStatusToken(s.kind.verb)
    && Words(s.toPath) && Words(s.fromPath) && HeadersSafe(s.headers) && |s.flag| == 1
    && (HasBody(s) ==>
          Trimmed(s.contentType.value) && '\r' !in s.contentType.value
          && BodySafe(s.body.value.Octets(), EndLineNoFlag(s)))
  }

  /** An outgoing response whose encoding `parseMessage` reads back. */
  predicate Answerable(s: Msg)
  {
    Word(s.tid) && s.status.Some? && 100 <= s.status.value <= 999
    && (s.comment.Some? ==> '\r' !in s.comment.value)
    && Words(s.toPath) && Words(s.fromPath) && HeadersSafe(s.headers) && |s.flag| == 1
  }

  // ---------------------------------------------------------------------
  // what is read back

  /** The header table rebuilt by the header loop: one value per name, the written values joined by ' '. */
  function Joined(h: Assoc<string, seq<string>>): (r: Assoc<string, seq<string>>)
    ensures |r| == |h| && forall i :: 0 <= i < |h| ==> r[i] == (h[i].0, [Join(h[i].1, " ")])
  {
    if h == [] then [] else [(h[0].0, [Join(h[0].1, " ")])] + Joined(h[1..])
  }

  /** The request the header loop builds from an encoded request `s`. */
  function Received(s: Msg): Msg
    requires s.kind.Request?
  {
    IncomingRequest(s.tid, s.kind.verb).(
      toPath := s.toPath, fromPath := s.fromPath, headers := Joined(s.headers),
      contentType := if HasBody(s) then s.contentType else None)
  }

  /** The comment a response line carries: a non-empty comment, or none. */
  function CommentOf(s: Msg): Option<string>
  {
    if s.comment.Some? && s.comment.value != "" then s.comment else None
  }

  /** The response the header loop builds from an encoded response `s`. */
  function Answered(s: Msg): Msg
    requires s.status.Some?
  {
    IncomingResponse(s.tid, s.status.value, CommentOf(s)).(
      toPath := s.toPath, fromPath := s.fromPath, headers := Joined(s.headers))
  }

  /** The octets sent as a string frame or as an ArrayBuffer. */
  function Framed(text: string, binary: bool): Frame
  {
    if binary then BinaryFrame(text) else TextFrame(text)
  }

  /** The body `parseMessage` extracts: a string, or bytes from a binary frame. */
  function Delivered(s: Msg, binary: bool): Option<Body>
  {
    if HasBody(s) then Some(if binary then Binary(s.body.value.Octets()) else Text(s.body.value.Octets()))
    else None
  }

  /**
   * An encoded request reads back as `Received(s)` run through the known
   * header parsers, with the body and the flag that were sent.
   */
  lemma RequestRoundTrip(s: Msg, binary: bool)
    requires Sendable(s)
    ensures Parse(Framed(RequestText(s), binary)) ==
      match KnownHeaders(Joined(s.headers), Received(s))
      case Returned(Some(k)) => Returned(Some(k.(body := Delivered(s, binary), flag := s.flag)))
      case other => other
  {
    var msg := RequestText(s);
    var p := |RequestLine(s)|;
    var q := p + |HeaderLines(Lines(s))|;
    RequestHead(s, msg, p, q);
    RequestRest(s, msg, p, q, binary);
  }

  /** After the header lines of a request come its body, if any, and its end-line: the parse ends there. */
  lemma RequestRest(s: Msg, msg: string, p: nat, q: nat, binary: bool)
    requires Sendable(s)
    requires StartLine(msg) == Some((p, IncomingRequest(s.tid, s.kind.verb)))
    requires q <= |msg| && msg[q..] == Tail(s)
    requires Headers(msg, p, IncomingRequest(s.tid, s.kind.verb)) == Headers(msg, q, Received(s))
    ensures Parse(Framed(msg, binary)) ==
      match KnownHeaders(Joined(s.headers), Received(s))
      case Returned(Some(k)) => Returned(Some(k.(body := Delivered(s, binary), flag := s.flag)))
      case other => other
  {
    var r := Received(s);
    assert r.headers == Joined(s.headers);
    BodyReadBack(s, msg, q, Tail(s), binary);
    forall k: Msg | SameFrame(k, r)
      ensures WithBody(Framed(msg, binary), msg, q, k) == Some(k.(body := Delivered(s, binary), flag := s.flag))
    {
      assert k.tid == s.tid && k.body.None?;
    }
    Conclude(Framed(msg, binary), msg, p, q, IncomingRequest(s.tid, s.kind.verb), r, Delivered(s, binary), s.flag);
  }


  /** The first line and the header lines of an encoded request. */
  lemma RequestHead(s: Msg, msg: string, p: nat, q: nat)
    requires Sendable(s) && msg == RequestText(s)
    requires p == |RequestLine(s)| && q == p + |HeaderLines(Lines(s))|
    ensures StartLine(msg) == Some((p, IncomingRequest(s.tid, s.kind.verb)))
    ensures q <= |msg| && msg[q..] == Tail(s)
    ensures Headers(msg, p, IncomingRequest(s.tid, s.kind.verb)) == Headers(msg, q, Received(s))
  {
    var first, lines, tail := RequestLine(s), HeaderLines(Lines(s)), Tail(s);
    RequestLayout(s);
    Windows(msg, first, lines, tail, p, q);
    var m0 := IncomingRequest(s.tid, s.kind.verb);
    StartLineOfRequest(s, lines + tail, msg, p);
    LinesSafe(s);
    LinesParse(msg, p, Lines(s), m0, q);
    ReceivedHeaders(s);
  }

  /**
   * An encoded response reads back as `Answered(s)` run through the known
   * header parsers, with the flag that was sent.
   */
  lemma ResponseRoundTrip(s: Msg, binary: bool)
    requires Answerable(s)
    ensures Parse(Framed(ResponseText(s), binary)) ==
      match KnownHeaders(Joined(s.headers), Answered(s))
      case Returned(Some(k)) => Returned(Some(k.(flag := s.flag)))
      case other => other
  {
    var msg := ResponseText(s);
    var p := |StatusLine(s)|;
    var q := p + |HeaderLines(PathLines(s) + s.headers)|;
    ResponseHead(s, msg, p, q);
    ResponseRest(s, msg, p, q, binary);
  }

  /** After the header lines of a response only its end-line is left: the parse ends there with the flag. */
  lemma ResponseRest(s: Msg, msg: string, p: nat, q: nat, binary: bool)
    requires s.status.Some? && |s.flag| == 1
    requires StartLine(msg) == Some((p, IncomingResponse(s.tid, s.status.value, CommentOf(s))))
    requires q <= |msg| && msg[q..] == EndLine(s)
    requires Headers(msg, p, IncomingResponse(s.tid, s.status.value, CommentOf(s))) == Headers(msg, q, Answered(s))
    ensures Parse(Framed(msg, binary)) ==
      match KnownHeaders(Joined(s.headers), Answered(s))
      case Returned(Some(k)) => Returned(Some(k.(flag := s.flag)))
      case other => other
  {
    var r := Answered(s);
    assert r.tid == s.tid && r.headers == Joined(s.headers);
    EndReadBack(s, msg, q, EndLine(s), binary);
    assert Headers(msg, q, r) == Some((q, r));
    forall k: Msg | SameFrame(k, r)
      ensures WithBody(Framed(msg, binary), msg, q, k) == Some(k.(flag := s.flag))
    {
      assert k.tid == s.tid;
    }
    ConcludeFlag(Framed(msg, binary), msg, p, q, IncomingResponse(s.tid, s.status.value, CommentOf(s)), r, s.flag);
  }


  /** The status line and the header lines of an encoded response. */
  lemma ResponseHead(s: Msg, msg: string, p: nat, q: nat)
    requires Answerable(s) && msg == ResponseText(s)
    requires p == |StatusLine(s)| && q == p + |HeaderLines(PathLines(s) + s.headers)|
    ensures StartLine(msg) == Some((p, IncomingResponse(s.tid, s.status.value, CommentOf(s))))
    ensures q <= |msg| && msg[q..] == EndLine(s)
    ensures Headers(msg, p, IncomingResponse(s.tid, s.status.value, CommentOf(s))) == Headers(msg, q, Answered(s))
  {
    var first, lines, tail := StatusLine(s), HeaderLines(PathLines(s) + s.headers), EndLine(s);
    ResponseLayout(s);
    Windows(msg, first, lines, tail, p, q);
    var m0 := IncomingResponse(s.tid, s.status.value, CommentOf(s));
    StartLineOfResponse(s, lines + tail, msg, p);
    ResponseLinesSafe(s);
    LinesParse(msg, p, PathLines(s) + s.headers, m0, q);
    AnsweredHeaders(s);
  }

  /** The three parts of a text, each found at its offset. */
  lemma Windows(msg: string, a: string, b: string, c: string, p: nat, q: nat)
    requires msg == a + b + c && p == |a| && q == |a| + |b|
    ensures msg == a + (b + c) && msg[..p] == a && msg[p..q] == b && msg[q..] == c
  {
  }

  /** `parseMessage` after the header loop: the known header parsers, then the body and the flag. */
  lemma Conclude(f: Frame, msg: string, p: nat, q: nat, m0: Msg, r: Msg, body: Option<Body>, flag: string)
    requires !f.OtherFrame? && FrameOctets(f) == msg
    requires StartLine(msg) == Some((p, m0)) && Headers(msg, p, m0) == Some((q, r))
    requires forall k: Msg {:trigger WithBody(f, msg, q, k)} :: SameFrame(k, r) ==>
      WithBody(f, msg, q, k) == Some(k.(body := body, flag := flag))
    ensures Parse(f) == match KnownHeaders(r.headers, r)
      case Returned(Some(k)) => Returned(Some(k.(body := body, flag := flag)))
      case other => other
  {
    ParseSteps(f, p, m0, q, r);
  }

  lemma ConcludeFlag(f: Frame, msg: string, p: nat, q: nat, m0: Msg, r: Msg, flag: string)
    requires !f.OtherFrame? && FrameOctets(f) == msg
    requires StartLine(msg) == Some((p, m0)) && Headers(msg, p, m0) == Some((q, r))
    requires forall k: Msg {:trigger WithBody(f, msg, q, k)} :: SameFrame(k, r) ==>
      WithBody(f, msg, q, k) == Some(k.(flag := flag))
    ensures Parse(f) == match KnownHeaders(r.headers, r)
      case Returned(Some(k)) => Returned(Some(k.(flag := flag)))
      case other => other
  {
    ParseSteps(f, p, m0, q, r);
  }

  /** The blank line of a request with a body, or its end-line, stops the header loop; the body and flag follow. */
  lemma BodyReadBack(s: Msg, msg: string, q: nat, tail: string, binary: bool)
    requires Sendable(s) && tail == Tail(s) && q <= |msg| && msg[q..] == tail
    ensures Headers(msg, q, Received(s)) == Some((q, Received(s)))
    ensures forall k: Msg {:trigger WithBody(Framed(msg, binary), msg, q, k)} :: k.tid == s.tid && k.body.None? ==>
      WithBody(Framed(msg, binary), msg, q, k) == Some(k.(body := Delivered(s, binary), flag := s.flag))
  {
    var eln := EndLineNoFlag(s);
    var r := Received(s);
    assert EndLineNoFlag(r) == eln;
    if HasBody(s) {
      var b := s.body.value.Octets();
      var t := CRLF + b + CRLF + eln + s.flag + CRLF;
      assert tail == t;
      assert msg[q..q + 2] == CRLF by {
        assert msg[q..q + 2] == tail[..2];
      }
      StopAtBlank(msg, q, r);
      forall k: Msg | k.tid == s.tid && k.body.None?
        ensures WithBody(Framed(msg, binary), msg, q, k) == Some(k.(body := Delivered(s, binary), flag := s.flag))
      {
        assert EndLineNoFlag(k) == eln;
        assert msg[q..q + |t|] == t;
        WithBodyOf(Framed(msg, binary), msg, q, k, b, s.flag);
      }
    } else {
      EndReadBack(s, msg, q, tail, binary);
      assert Headers(msg, q, r) == Some((q, r));
    }
  }

  /** The end-line stops the header loop, and the flag follows it. */
  lemma EndReadBack(s: Msg, msg: string, q: nat, tail: string, binary: bool)
    requires |s.flag| == 1 && tail == EndLine(s) && q <= |msg| && msg[q..] == tail
    ensures forall r: Msg {:trigger Headers(msg, q, r)} :: r.tid == s.tid ==> Headers(msg, q, r) == Some((q, r))
    ensures forall k: Msg {:trigger WithBody(Framed(msg, binary), msg, q, k)} :: k.tid == s.tid ==>
      WithBody(Framed(msg, binary), msg, q, k) == Some(k.(flag := s.flag))
  {
    var eln := EndLineNoFlag(s);
    var t := eln + s.flag;
    assert tail == t + CRLF;
    assert msg[q..q + |t|] == t by {
      assert msg[q..q + |t|] == tail[..|t|];
    }
    assert msg[q..q + |eln|] == eln by {
      assert msg[q..q + |eln|] == t[..|eln|];
    }
    forall r: Msg | r.tid == s.tid ensures Headers(msg, q, r) == Some((q, r)) {
      assert EndLineNoFlag(r) == eln;
      StopAtEndLine(msg, q, r);
    }
    forall k: Msg | k.tid == s.tid
      ensures WithBody(Framed(msg, binary), msg, q, k) == Some(k.(flag := s.flag))
    {
      assert EndLineNoFlag(k) == eln;
      WithoutBodyOf(Framed(msg, binary), msg, q, k, s.flag);
    }
  }

  /** Without known headers, an encoded request reads back completely. */
  lemma PlainRequestRoundTrip(s: Msg, binary: bool)
    requires Sendable(s)
    requires forall i :: 0 <= i < |s.headers| ==> HeaderParser(s.headers[i].0).None?
    ensures Parse(Framed(RequestText(s), binary))
      == Returned(Some(Received(s).(body := Delivered(s, binary), flag := s.flag)))
  {
    RequestRoundTrip(s, binary);
    var r := Received(s);
    assert forall i :: 0 <= i < |r.headers| ==> HeaderParser(r.headers[i].0).None? by {
      forall i | 0 <= i < |r.headers| ensures HeaderParser(r.headers[i].0).None? {
        assert r.headers[i].0 == s.headers[i].0;
      }
    }
  }

  // ---------------------------------------------------------------------
  // layout of the encoded text

  function PathLines(m: Msg): Assoc<string, seq<string>>
  {
    [("To-Path", m.toPath), ("From-Path", m.fromPath)]
  }

  function ContentTypeLines(s: Msg): Assoc<string, seq<string>>
  {
    if HasBody(s) then [("Content-Type", [s.contentType.value])] else []
  }

  /** Every line the header loop of a request reads. */
  function Lines(s: Msg): Assoc<string, seq<string>>
  {
    PathLines(s) + s.headers + ContentTypeLines(s)
  }

  /** What follows the header lines of a request. */
  function Tail(s: Msg): string
  {
    if HasBody(s) then CRLF + s.body.value.Octets() + CRLF + EndLine(s) else EndLine(s)
  }

  lemma {:induction false} HeaderLinesAppend(a: Assoc<string, seq<string>>, b: Assoc<string, seq<string>>)
    ensures HeaderLines(a + b) == HeaderLines(a) + HeaderLines(b)
    decreases |b|
  {
    if b == [] {
      assert a + b == a;
    } else {
      var c := b[..|b| - 1];
      HeaderLinesAppend(a, c);
      assert (a + b)[..|a + b| - 1] == a + c;
      assert (a + b)[|a + b| - 1] == b[|b| - 1];
    }
  }

  lemma PathLinesText(m: Msg)
    ensures HeaderLines(PathLines(m)) == PathLine("To-Path", m.toPath) + PathLine("From-Path", m.fromPath)
  {
    var p := PathLines(m);
    assert p[..1] == [p[0]] && [p[0]][..0] == [];
    assert HeaderLines([p[0]]) == HeaderLines([]) + HeaderLine(p[0]);
    assert HeaderLines(p) == HeaderLines([p[0]]) + HeaderLine(p[1]);
  }

  lemma ContentTypeLineText(ct: string)
    ensures HeaderLines([("Content-Type", [ct])]) == "Content-Type: " + ct + CRLF
  {
    assert [("Content-Type", [ct])][..0] == [];
    assert "Content-Type" + ": " == "Content-Type: ";
  }

  lemma RequestLayout(s: Msg)
    requires s.kind.Request?
    ensures RequestText(s) == RequestLine(s) + HeaderLines(Lines(s)) + Tail(s)
  {
    var a, t, f := RequestLine(s), PathLine("To-Path", s.toPath), PathLine("From-Path", s.fromPath);
    var h, c := HeaderLines(s.headers), HeaderLines(ContentTypeLines(s));
    HeaderLinesAppend(PathLines(s) + s.headers, ContentTypeLines(s));
    HeaderLinesAppend(PathLines(s), s.headers);
    PathLinesText(s);
    assert HeaderLines(Lines(s)) == t + f + h + c;
    TailLayout(s);
    Regroup(a, t, f, h, c, Tail(s));
  }

  lemma Regroup(a: string, t: string, f: string, h: string, c: string, e: string)
    ensures a + t + f + h + (c + e) == a + (t + f + h + c) + e
  {
  }

  lemma TailLayout(s: Msg)
    ensures RequestTail(s) == HeaderLines(ContentTypeLines(s)) + Tail(s)
  {
    if HasBody(s) {
      var ct, b := s.contentType.value, s.body.value.Octets();
      ContentTypeLineText(ct);
      TailRegroup(ct, b, EndLine(s));
    } else {
      assert HeaderLines([]) == "";
    }
  }

  lemma TailRegroup(ct: string, b: string, e: string)
    ensures "Content-Type: " + ct + CRLF + CRLF + b + CRLF + e == ("Content-Type: " + ct + CRLF) + (CRLF + b + CRLF + e)
  {
  }

  lemma ResponseLayout(s: Msg)
    ensures ResponseText(s) == StatusLine(s) + HeaderLines(PathLines(s) + s.headers) + EndLine(s)
  {
    HeaderLinesAppend(PathLines(s), s.headers);
    PathLinesText(s);
    var a, t, f, h := StatusLine(s), PathLine("To-Path", s.toPath), PathLine("From-Path", s.fromPath), HeaderLines(s.headers);
    ResponseRegroup(a, t, f, h, EndLine(s));
  }

  lemma ResponseRegroup(a: string, t: string, f: string, h: string, e: string)
    ensures a + t + f + h + e == a + (t + f + h) + e
  {
  }

  // ---------------------------------------------------------------------
  // the first line

  /** `indexOf(CRLF, from)` finds a CRLF at `at` when none starts earlier. */
  lemma {:induction false} IndexOfCrlf(s: string, from: nat, at: nat)
    requires from <= at && at + 2 <= |s| && s[at..at + 2] == CRLF && '\r' !in s[from..at]
    ensures IndexOf(s, CRLF, from) == at
    decreases at - from
  {
    if from < at {
      assert s[from] == s[from..at][0];
      assert s[from..from + 2] != CRLF by {
        assert s[from..from + 2][0] == s[from];
      }
      assert s[from + 1..at] == s[from..at][1..];
      IndexOfCrlf(s, from + 1, at);
    }
  }

  lemma WordNoCr(s: string)
    requires Word(s)
    ensures '\r' !in s && ' ' !in s
  {
  }

  lemma RequestStart(msg: string, tid: string, verb: string)
    requires IndexOf(msg, CRLF, 0) != -1 && StartTokens(msg) == ["MSRP", tid, verb]
    requires tid != "" && verb != "" && !IsStatusToken(verb)
    ensures StartLine(msg) == Some((IndexOf(msg, CRLF, 0) + 2, IncomingRequest(tid, verb)))
  {
    var end, t := IndexOf(msg, CRLF, 0), ["MSRP", tid, verb];
    assert StartLine(msg) == StartOf(end, t);
    assert |t| == 3 && t[0] == "MSRP" && t[1] == tid && t[2] == verb;
    StartOfRequest(end, t);
  }


  /** The first line of a text ends at its first CRLF and splits into its words. */
  lemma FirstLine(msg: string, first: string, more: string)
    requires msg == first + CRLF + more && '\r' !in first
    ensures IndexOf(msg, CRLF, 0) == |first| && StartTokens(msg) == Split(first, " ")
  {
    Slice(msg, 0, msg, 0, |first|);
    assert msg[0..|first|] == first;
    assert msg[|first|..|first| + 2] == CRLF;
    IndexOfCrlf(msg, 0, |first|);
    assert Substring(msg, 0, |first|) == first;
  }

  lemma RequestLineShape(t: string, v: string)
    ensures "MSRP " + t + " " + v + CRLF == "MSRP" + [' '] + (t + [' '] + v) + CRLF
  {
  }

  lemma StatusLineShape(t: string, c: string, r: string)
    ensures "MSRP " + t + " " + c + r + CRLF == "MSRP" + [' '] + (t + [' '] + (c + r)) + CRLF
  {
  }

  /** Three space-free words joined by single spaces split back into those words. */
  lemma Tokens3(a: string, t: string, c: string)
    requires ' ' !in a && ' ' !in t && ' ' !in c
    ensures Split(a + [' '] + (t + [' '] + c), " ") == [a, t, c]
  {
    SplitFirst(a, ' ', t + [' '] + c);
    SplitFirst(t, ' ', c);
    SplitAbsent(c, ' ');
  }

  /** Three space-free words and a tail split into the three words and the tail's own words. */
  lemma TokensMore(a: string, t: string, c: string, x: string)
    requires ' ' !in a && ' ' !in t && ' ' !in c
    ensures Split(a + [' '] + (t + [' '] + (c + [' '] + x)), " ") == [a, t, c] + Split(x, " ")
  {
    var y := c + [' '] + x;
    var z := t + [' '] + y;
    var sx := Split(x, " ");
    SplitFirst(c, ' ', x);
    assert Split(y, " ") == [c] + sx;
    SplitFirst(t, ' ', y);
    assert Split(z, " ") == [t] + ([c] + sx);
    SplitFirst(a, ' ', z);
    assert Split(a + [' '] + z, " ") == [a] + ([t] + ([c] + sx));
    Cons3(a, t, c, sx);
  }

  lemma Cons3<T>(a: T, b: T, c: T, xs: seq<T>)
    ensures [a] + ([b] + ([c] + xs)) == [a, b, c] + xs
  {
  }

  lemma StartLineOfRequest(s: Msg, rest: string, msg: string, p: nat)
    requires s.kind.Request? && Word(s.tid) && Word(s.kind.verb) && !IsStatusToken(s.kind.verb)
    requires msg == RequestLine(s) + rest && p == |RequestLine(s)|
    ensures StartLine(msg) == Some((p, IncomingRequest(s.tid, s.kind.verb)))
  {
    var tid, verb := s.tid, s.kind.verb;
    WordNoCr(tid);
    WordNoCr(verb);
    var first := "MSRP" + [' '] + (tid + [' '] + verb);
    RequestLineShape(tid, verb);
    assert '\r' !in first;
    FirstLine(msg, first, rest);
    Tokens3("MSRP", tid, verb);
    RequestStart(msg, tid, verb);
  }

  lemma ResponseStart(msg: string, tid: string, code: string, extra: seq<string>)
    requires IndexOf(msg, CRLF, 0) != -1 && StartTokens(msg) == ["MSRP", tid, code] + extra
    requires tid != "" && IsStatusToken(code)
    ensures StartLine(msg) == Some((IndexOf(msg, CRLF, 0) + 2,
      IncomingResponse(tid, ParseInt(code).value, if |extra| > 0 then Some(Join(extra, " ")) else None)))
  {
    var end := IndexOf(msg, CRLF, 0);
    assert StartLine(msg) == StartOf(end, ["MSRP", tid, code] + extra);
    ResponseTokens(end, tid, code, extra);
  }

  lemma ResponseTokens(end: nat, tid: string, code: string, extra: seq<string>)
    requires tid != "" && IsStatusToken(code)
    ensures StartOf(end, ["MSRP", tid, code] + extra) == Some((end + 2,
      IncomingResponse(tid, ParseInt(code).value, if |extra| > 0 then Some(Join(extra, " ")) else None)))
  {
    var t := ["MSRP", tid, code] + extra;
    TokensOf(t, tid, code, extra);
    StartOfResponse(end, t);
  }

  lemma TokensOf(t: seq<string>, tid: string, code: string, extra: seq<string>)
    requires t == ["MSRP", tid, code] + extra
    ensures |t| >= 3 && t[0] == "MSRP" && t[1] == tid && t[2] == code && t[3..] == extra
  {
  }

  /** A first line whose third token is a status code starts a response. */
  lemma StartOfResponse(end: nat, t: seq<string>)
    requires |t| >= 3 && t[0] == "MSRP" && t[1] != "" && IsStatusToken(t[2])
    ensures StartOf(end, t) == Some((end + 2,
      IncomingResponse(t[1], ParseInt(t[2]).value, if |t| > 3 then Some(Join(t[3..], " ")) else None)))
  {
  }

  /** A first line of exactly three tokens whose third is not a status code starts a request. */
  lemma StartOfRequest(end: nat, t: seq<string>)
    requires |t| == 3 && t[0] == "MSRP" && t[1] != "" && t[2] != "" && !IsStatusToken(t[2])
    ensures StartOf(end, t) == Some((end + 2, IncomingRequest(t[1], t[2])))
  {
  }



  lemma PlainResponseStart(msg: string, tid: string, code: string)
    requires IndexOf(msg, CRLF, 0) != -1 && StartTokens(msg) == ["MSRP", tid, code]
    requires tid != "" && IsStatusToken(code)
    ensures StartLine(msg) == Some((IndexOf(msg, CRLF, 0) + 2, IncomingResponse(tid, ParseInt(code).value, None)))
  {
    var end, t := IndexOf(msg, CRLF, 0), ["MSRP", tid, code];
    assert StartLine(msg) == StartOf(end, t);
    assert |t| == 3 && t[0] == "MSRP" && t[1] == tid && t[2] == code;
    StartOfResponse(end, t);
  }


  /** A status in 100..999 is written with three digits and read back as a status code. */
  lemma ThreeDigits(c: int)
    requires 100 <= c <= 999
    ensures |StatusText(Some(c))| == 3 && IsStatusToken(StatusText(Some(c)))
    ensures ParseInt(StatusText(Some(c))) == Some(c) && ' ' !in StatusText(Some(c))
    ensures '\r' !in StatusText(Some(c))
  {
    ParseIntToString(c);
    NatToStringNoSpace(c);
    assert NatToString(c) == NatToString(c / 10) + [DigitChar(c % 10)];
    assert NatToString(c / 10) == NatToString(c / 100) + [DigitChar((c / 10) % 10)];
  }

  /** The status line's first line, with the words of the status line as symbols. */
  lemma ResponseFirst(msg: string, tid: string, code: string, r: string, more: string)
    requires msg == "MSRP " + tid + " " + code + r + CRLF + more
    requires '\r' !in tid && '\r' !in code && '\r' !in r
    ensures IndexOf(msg, CRLF, 0) + 2 == |"MSRP " + tid + " " + code + r + CRLF|
    ensures StartTokens(msg) == Split("MSRP" + [' '] + (tid + [' '] + (code + r)), " ")
  {
    var first := "MSRP" + [' '] + (tid + [' '] + (code + r));
    StatusLineShape(tid, code, r);
    assert '\r' !in first;
    FirstLine(msg, first, more);
  }

  /** A status line without a comment: its first line splits into three words. */
  lemma StatusOnly(msg: string, tid: string, code: string, more: string)
    requires msg == "MSRP " + tid + " " + code + CRLF + more
    requires Word(tid) && ' ' !in code && '\r' !in code
    ensures IndexOf(msg, CRLF, 0) + 2 == |"MSRP " + tid + " " + code + CRLF|
    ensures StartTokens(msg) == ["MSRP", tid, code]
  {
    WordNoCr(tid);
    var first := "MSRP" + [' '] + (tid + [' '] + code);
    RequestLineShape(tid, code);
    assert '\r' !in first;
    FirstLine(msg, first, more);
    Tokens3("MSRP", tid, code);
  }

  /** A status line with a comment: its first line splits into three words and the comment's words. */
  lemma StatusWithComment(msg: string, tid: string, code: string, c: string, more: string)
    requires msg == "MSRP " + tid + " " + code + (" " + c) + CRLF + more
    requires Word(tid) && ' ' !in code && '\r' !in code && '\r' !in c
    ensures IndexOf(msg, CRLF, 0) + 2 == |"MSRP " + tid + " " + code + (" " + c) + CRLF|
    ensures StartTokens(msg) == ["MSRP", tid, code] + Split(c, " ")
  {
    WordNoCr(tid);
    ResponseFirst(msg, tid, code, " " + c, more);
    assert code + (" " + c) == code + [' '] + c;
    TokensMore("MSRP", tid, code, c);
  }

  lemma StartLineOfResponse(s: Msg, more: string, msg: string, p: nat)
    requires Answerable(s) && msg == StatusLine(s) + more && p == |StatusLine(s)|
    ensures StartLine(msg) == Some((p, IncomingResponse(s.tid, s.status.value, CommentOf(s))))
  {
    ThreeDigits(s.status.value);
    StatusLineForm(s);
    var code := StatusText(s.status);
    if CommentOf(s).None? {
      PlainStatusLine(msg, s.tid, code, more, p);
    } else {
      CommentStatusLine(msg, s.tid, code, s.comment.value, more, p);
    }
  }

  lemma StatusLineForm(s: Msg)
    ensures CommentOf(s).None? ==> StatusLine(s) == "MSRP " + s.tid + " " + StatusText(s.status) + CRLF
    ensures CommentOf(s).Some? ==>
      StatusLine(s) == "MSRP " + s.tid + " " + StatusText(s.status) + (" " + s.comment.value) + CRLF
  {
  }


  lemma PlainStatusLine(msg: string, tid: string, code: string, more: string, p: nat)
    requires msg == "MSRP " + tid + " " + code + CRLF + more && p == |"MSRP " + tid + " " + code + CRLF|
    requires Word(tid) && IsStatusToken(code) && ' ' !in code && '\r' !in code
    ensures StartLine(msg) == Some((p, IncomingResponse(tid, ParseInt(code).value, None)))
  {
    StatusOnly(msg, tid, code, more);
    PlainResponseStart(msg, tid, code);
  }

  lemma CommentStatusLine(msg: string, tid: string, code: string, c: string, more: string, p: nat)
    requires msg == "MSRP " + tid + " " + code + (" " + c) + CRLF + more
    requires p == |"MSRP " + tid + " " + code + (" " + c) + CRLF|
    requires Word(tid) && IsStatusToken(code) && ' ' !in code && '\r' !in code && '\r' !in c && c != ""
    ensures StartLine(msg) == Some((p, IncomingResponse(tid, ParseInt(code).value, Some(c))))
  {
    StatusWithComment(msg, tid, code, c, more);
    JoinSplit(c, " ");
    ResponseStart(msg, tid, code, Split(c, " "));
  }





  // ---------------------------------------------------------------------
  // the header lines

  /** One header line written by `encode` is read back by `getNextHeader`. */
  lemma LineParses(msg: string, p: nat, h: (string, seq<string>), m: Msg, q: nat)
    requires LineSafe(h) && q == p + |HeaderLine(h)|
    requires q <= |msg| && msg[p..q] == HeaderLine(h)
    ensures NextHeader(msg, p, m) == Next(q, AddHeader(m, h.0, Join(h.1, " ")))
  {
    var n, v := h.0, Join(h.1, " ");
    var colon := p + |n|;
    var end := colon + 2 + |v|;
    LineFacts(msg, p, n, v, colon, end, q);
    LineRead(msg, p, m, n, v, colon, end);
  }

  /** `getNextHeader` on a line whose name, colon, value and CRLF are where a written line puts them. */
  lemma LineRead(msg: string, p: nat, m: Msg, n: string, v: string, colon: nat, end: nat)
    requires |n| > 0 && n[0] != '-' && Trimmed(n) && Trimmed(v)
    requires p < |msg| && msg[p] == n[0] && IndexOf(msg, CRLF, p) == end && IndexOf(msg, ":", p) == colon
    requires Substring(msg, p, colon) == n && Substring(msg, colon + 1, end) == " " + v
    ensures NextHeader(msg, p, m) == Next(end + 2, AddHeader(m, n, v))
  {
    var eln := EndLineNoFlag(m);
    assert Substr(msg, p, 2) != CRLF by {
      assert Substr(msg, p, 2)[0] == n[0];
    }
    assert Substr(msg, p, |eln|) != eln by {
      assert eln[0] == '-';
      assert Substr(msg, p, |eln|)[0] == n[0];
    }
    TrimOfTrimmed(n);
    TrimSpaced(v);
    NextHeaderAt(msg, p, m, end, colon);
  }

  /** Where the name, the colon, the value and the CRLF of a header line are found. */
  lemma LineFacts(msg: string, p: nat, n: string, v: string, colon: nat, end: nat, q: nat)
    requires |n| > 0 && ':' !in n && '\r' !in n && '\r' !in v
    requires colon == p + |n| && end == colon + 2 + |v| && q == end + 2
    requires q <= |msg| && msg[p..q] == n + ": " + v + CRLF
    ensures msg[p] == n[0] && IndexOf(msg, CRLF, p) == end && IndexOf(msg, ":", p) == colon
    ensures Substring(msg, p, colon) == n && Substring(msg, colon + 1, end) == " " + v
  {
    LineWindows(msg, p, n, v, colon, end, q);
    assert '\r' !in n + ": " + v;
    IndexOfCrlf(msg, p, end);
    forall k | p <= k < colon ensures msg[k] != ':' {
      assert msg[k] == msg[p..colon][k - p];
    }
    IndexOfChar(msg, ':', p, colon);
  }

  lemma LineWindows(msg: string, p: nat, n: string, v: string, colon: nat, end: nat, q: nat)
    requires |n| > 0 && colon == p + |n| && end == colon + 2 + |v| && q == end + 2
    requires q <= |msg| && msg[p..q] == n + ": " + v + CRLF
    ensures msg[p..colon] == n && msg[colon] == ':' && msg[colon + 1..end] == " " + v
    ensures msg[p..end] == n + ": " + v && msg[end..end + 2] == CRLF && msg[p] == n[0]
  {
    var t := n + ": " + v + CRLF;
    LineParts(n, v);
    Slice(msg, p, t, 0, |n|);
    Slice(msg, p, t, |n|, |n| + 1);
    Slice(msg, p, t, |n| + 1, |n| + 2 + |v|);
    Slice(msg, p, t, 0, |n| + 2 + |v|);
    Slice(msg, p, t, |n| + 2 + |v|, |t|);
    assert msg[p] == msg[p..colon][0];
    assert msg[colon] == msg[colon..colon + 1][0];
  }

  /** The parts of a header line, by position. */
  lemma LineParts(n: string, v: string)
    ensures var t := n + ": " + v + CRLF;
      |t| == |n| + 4 + |v| && t[0..|n|] == n && t[|n|..|n| + 1] == ":"
      && t[|n| + 1..|n| + 2 + |v|] == " " + v && t[0..|n| + 2 + |v|] == n + ": " + v
      && t[|n| + 2 + |v|..] == CRLF
  {
  }

  lemma HeadersStep(msg: string, p: nat, m: Msg, q: nat, m': Msg)
    requires p <= |msg| && NextHeader(msg, p, m) == Next(q, m')
    ensures Headers(msg, p, m) == Headers(msg, q, m')
  {
  }

  /** Every line the header loop reads, one after another. */
  function AddAll(m: Msg, l: Assoc<string, seq<string>>): Msg
    decreases |l|
  {
    if l == [] then m else AddAll(AddHeader(m, l[0].0, Join(l[0].1, " ")), l[1..])
  }

  lemma AddAllCons(m: Msg, l: Assoc<string, seq<string>>, m': Msg)
    requires l != [] && m' == AddHeader(m, l[0].0, Join(l[0].1, " "))
    ensures AddAll(m, l) == AddAll(m', l[1..])
  {
  }

  /** The header line `h` is written at `p`, and reads back. */
  predicate LineAt(msg: string, p: nat, h: (string, seq<string>))
  {
    LineSafe(h) && p + |HeaderLine(h)| <= |msg| && msg[p..p + |HeaderLine(h)|] == HeaderLine(h)
  }

  /** The header lines `l` are written one after another from `p`. */
  predicate LinesAt(msg: string, p: nat, l: Assoc<string, seq<string>>)
    decreases |l|
  {
    l == [] || (LineAt(msg, p, l[0]) && LinesAt(msg, p + |HeaderLine(l[0])|, l[1..]))
  }

  function Width(l: Assoc<string, seq<string>>): nat
    decreases |l|
  {
    if l == [] then 0 else |HeaderLine(l[0])| + Width(l[1..])
  }

  lemma {:induction false} LinesAtWindow(msg: string, p: nat, l: Assoc<string, seq<string>>, r: nat)
    requires forall i :: 0 <= i < |l| ==> LineSafe(l[i])
    requires r == p + |HeaderLines(l)| && r <= |msg| && msg[p..r] == HeaderLines(l)
    ensures LinesAt(msg, p, l) && p + Width(l) == r
    decreases |l|
  {
    if l != [] {
      var line, rest := HeaderLine(l[0]), HeaderLines(l[1..]);
      HeaderLinesCons(l);
      var q := p + |line|;
      SplitWindow(msg, p, q, r, line, rest);
      SafeTail(l);
      LinesAtWindow(msg, q, l[1..], r);
      assert LineAt(msg, p, l[0]);
    } else {
      assert HeaderLines(l) == "";
    }
  }

  /** A window holding `a + b` holds `a` and then `b`. */
  lemma SplitWindow(msg: string, p: nat, q: nat, r: nat, a: string, b: string)
    requires q == p + |a| && r == q + |b| && r <= |msg| && msg[p..r] == a + b
    ensures msg[p..q] == a && msg[q..r] == b
  {
    assert msg[p..q] == msg[p..r][..|a|];
    assert msg[q..r] == msg[p..r][|a|..];
  }

  lemma SafeTail(l: Assoc<string, seq<string>>)
    requires l != [] && forall i :: 0 <= i < |l| ==> LineSafe(l[i])
    ensures LineSafe(l[0]) && forall i :: 0 <= i < |l[1..]| ==> LineSafe(l[1..][i])
  {
    forall i | 0 <= i < |l[1..]| ensures LineSafe(l[1..][i]) {
      assert l[1..][i] == l[i + 1];
    }
  }

  /** The first of the lines `l` written from `p`, and the rest after it. */
  lemma LinesAtCons(msg: string, p: nat, l: Assoc<string, seq<string>>, q: nat)
    requires l != [] && LinesAt(msg, p, l) && q == p + |HeaderLine(l[0])|
    ensures LineSafe(l[0]) && q <= |msg| && msg[p..q] == HeaderLine(l[0])
    ensures LinesAt(msg, q, l[1..]) && Width(l) == q - p + Width(l[1..])
  {
  }

  lemma {:induction false} LinesAtParse(msg: string, p: nat, l: Assoc<string, seq<string>>, m: Msg, r: nat)
    requires p <= |msg| && LinesAt(msg, p, l) && r == p + Width(l)
    ensures r <= |msg| && Headers(msg, p, m) == Headers(msg, r, AddAll(m, l))
    decreases |l|
  {
    if l != [] {
      var q := p + |HeaderLine(l[0])|;
      LinesAtCons(msg, p, l, q);
      var m' := AddHeader(m, l[0].0, Join(l[0].1, " "));
      LineParses(msg, p, l[0], m, q);
      HeadersStep(msg, p, m, q, m');
      LinesAtParse(msg, q, l[1..], m', r);
      AddAllCons(m, l, m');
    } else {
      assert AddAll(m, l) == m;
    }
  }

  /** Header lines written by `encode` are read back by the header loop, in order. */
  lemma LinesParse(msg: string, p: nat, l: Assoc<string, seq<string>>, m: Msg, r: nat)
    requires forall i :: 0 <= i < |l| ==> LineSafe(l[i])
    requires r == p + |HeaderLines(l)| && r <= |msg| && msg[p..r] == HeaderLines(l)
    ensures Headers(msg, p, m) == Headers(msg, r, AddAll(m, l))
  {
    LinesAtWindow(msg, p, l, r);
    LinesAtParse(msg, p, l, m, r);
  }

  lemma StopAtBlank(msg: string, q: nat, m: Msg)
    requires q + 2 <= |msg| && msg[q..q + 2] == CRLF
    ensures Headers(msg, q, m) == Some((q, m))
  {
    assert Substr(msg, q, 2) == CRLF;
  }

  lemma StopAtEndLine(msg: string, q: nat, m: Msg)
    requires q + |EndLineNoFlag(m)| <= |msg| && msg[q..q + |EndLineNoFlag(m)|] == EndLineNoFlag(m)
    ensures Headers(msg, q, m) == Some((q, m))
  {
    assert Substr(msg, q, |EndLineNoFlag(m)|) == EndLineNoFlag(m);
  }

  // ---------------------------------------------------------------------
  // the message the header lines build

  lemma {:induction false} AddAllAppend(m: Msg, a: Assoc<string, seq<string>>, b: Assoc<string, seq<string>>)
    ensures AddAll(m, a + b) == AddAll(AddAll(m, a), b)
    decreases |a|
  {
    if a == [] {
      assert a + b == b;
    } else {
      assert (a + b)[0] == a[0] && (a + b)[1..] == a[1..] + b;
      AddAllAppend(AddHeader(m, a[0].0, Join(a[0].1, " ")), a[1..], b);
    }
  }

  lemma AddToPath(m: Msg, v: string)
    ensures AddHeader(m, "To-Path", v) == m.(toPath := Split(v, " "))
  {
    HeaderNames.ToPathCanonical();
  }

  lemma AddFromPath(m: Msg, v: string)
    ensures AddHeader(m, "From-Path", v) == m.(fromPath := Split(v, " "))
  {
    HeaderNames.FromPathCanonical();
  }

  lemma AddContentType(m: Msg, v: string)
    ensures AddAll(m, [("Content-Type", [v])]) == m.(contentType := Some(v))
  {
    AddOne(m, "Content-Type", v);
    AddContentTypeHeader(m, v);
  }

  lemma AddContentTypeHeader(m: Msg, v: string)
    ensures AddHeader(m, "Content-Type", v) == m.(contentType := Some(v))
  {
    HeaderNames.ContentTypeCanonical();
  }

  lemma AddOne(m: Msg, n: string, v: string)
    ensures AddAll(m, [(n, [v])]) == AddHeader(m, n, v)
  {
    assert [(n, [v])][1..] == [] && Join([v], " ") == v;
  }

  lemma WordsFree(p: seq<string>)
    requires Words(p)
    ensures Free(p, ' ')
  {
    forall i | 0 <= i < |p| ensures ' ' !in p[i] {
      WordNoCr(p[i]);
    }
  }

  lemma AddPaths(m: Msg, to: seq<string>, from: seq<string>)
    requires Words(to) && Words(from)
    ensures AddAll(m, [("To-Path", to), ("From-Path", from)]) == m.(toPath := to, fromPath := from)
  {
    WordsFree(to);
    WordsFree(from);
    SplitJoin(to, ' ');
    SplitJoin(from, ' ');
    var l := [("To-Path", to), ("From-Path", from)];
    AddToPath(m, Join(to, " "));
    var m1 := m.(toPath := to);
    assert AddAll(m, l) == AddAll(m1, l[1..]);
    AddFromPath(m1, Join(from, " "));
    assert l[1..][1..] == [];
  }

  lemma AppendAssoc<T>(a: seq<T>, b: seq<T>, c: seq<T>)
    ensures (a + b) + c == a + (b + c)
  {
  }

  /** Headers with new, canonical, ordinary names are appended one value each. */
  lemma {:induction false} AddAllPlain(m: Msg, h: Assoc<string, seq<string>>)
    requires UniqueKeys(h)
    requires forall i :: 0 <= i < |h| ==> Plain(h[i].0) && Get(m.headers, h[i].0).None?
    ensures AddAll(m, h) == m.(headers := m.headers + Joined(h))
    decreases |h|
  {
    if h == [] {
      assert m.headers + [] == m.headers;
    } else {
      var n, v := h[0].0, Join(h[0].1, " ");
      var m1 := AddHeader(m, n, v);
      assert m1 == m.(headers := m.headers + [(n, [v])]) by {
        assert Plain(h[0].0) && Get(m.headers, h[0].0).None?;
        assert Util.Normalise(n) == n && !Special(n);
        assert m1 == Store(m, n, v);
        assert Values(m, n) == [] && Values(m, n) + [v] == [v];
        assert Store(m, n, v) == m.(headers := Put(m.headers, n, [v]));
        PutNew(m.headers, n, [v]);
      }
      assert forall i :: 0 <= i < |h[1..]| ==> Plain(h[1..][i].0) && Get(m1.headers, h[1..][i].0).None? by {
        forall i | 0 <= i < |h[1..]| ensures Plain(h[1..][i].0) && Get(m1.headers, h[1..][i].0).None? {
          assert h[1..][i] == h[i + 1];
          assert h[i + 1].0 != n;
        }
      }
      assert UniqueKeys(h[1..]);
      AddAllPlain(m1, h[1..]);
      var rest := Joined(h[1..]);
      assert Joined(h) == [(n, [v])] + rest;
      AppendAssoc(m.headers, [(n, [v])], rest);
    }
  }

  lemma ReceivedHeaders(s: Msg)
    requires Sendable(s)
    ensures AddAll(IncomingRequest(s.tid, s.kind.verb), Lines(s)) == Received(s)
  {
    var m0 := IncomingRequest(s.tid, s.kind.verb);
    var m1 := m0.(toPath := s.toPath, fromPath := s.fromPath);
    var m2 := m1.(headers := m1.headers + Joined(s.headers));
    calc {
      AddAll(m0, Lines(s));
      { AddAllAppend(m0, PathLines(s) + s.headers, ContentTypeLines(s)); }
      AddAll(AddAll(m0, PathLines(s) + s.headers), ContentTypeLines(s));
      { AddAllAppend(m0, PathLines(s), s.headers); }
      AddAll(AddAll(AddAll(m0, PathLines(s)), s.headers), ContentTypeLines(s));
      { AddPaths(m0, s.toPath, s.fromPath); }
      AddAll(AddAll(m1, s.headers), ContentTypeLines(s));
      { AddAllPlain(m1, s.headers); }
      AddAll(m2, ContentTypeLines(s));
      { if HasBody(s) { AddContentType(m2, s.contentType.value); } }
      m2.(contentType := if HasBody(s) then s.contentType else None);
      { assert m1.headers + Joined(s.headers) == Joined(s.headers); }
      Received(s);
    }
  }

  lemma AnsweredHeaders(s: Msg)
    requires Answerable(s)
    ensures AddAll(IncomingResponse(s.tid, s.status.value, CommentOf(s)), PathLines(s) + s.headers) == Answered(s)
  {
    var m0 := IncomingResponse(s.tid, s.status.value, CommentOf(s));
    var m1 := m0.(toPath := s.toPath, fromPath := s.fromPath);
    var m2 := m1.(headers := m1.headers + Joined(s.headers));
    calc {
      AddAll(m0, PathLines(s) + s.headers);
      { AddAllAppend(m0, PathLines(s), s.headers); }
      AddAll(AddAll(m0, PathLines(s)), s.headers);
      { AddPaths(m0, s.toPath, s.fromPath); }
      AddAll(m1, s.headers);
      { AddAllPlain(m1, s.headers); }
      m2;
      { assert m1.headers + Joined(s.headers) == Joined(s.headers); }
      Answered(s);
    }
  }

  lemma {:induction false} WordsJoin(p: seq<string>)
    requires Words(p)
    ensures Trimmed(Join(p, " ")) && '\r' !in Join(p, " ")
    decreases |p|
  {
    WordNoCr(p[0]);
    if |p| > 1 {
      assert Words(p[1..]) by {
        forall i | 0 <= i < |p[1..]| ensures Word(p[1..][i]) {
          assert p[1..][i] == p[i + 1];
        }
      }
      WordsJoin(p[1..]);
      var j := Join(p[1..], " ");
      assert Join(p, " ") == p[0] + " " + j;
      assert |j| > 0 by {
        assert |Join(p[1..], " ")| >= |p[1..][0]|;
      }
    }
  }

  lemma PathLinesSafe(m: Msg)
    requires Words(m.toPath) && Words(m.fromPath)
    ensures forall i :: 0 <= i < |PathLines(m)| ==> LineSafe(PathLines(m)[i])
  {
    WordsJoin(m.toPath);
    WordsJoin(m.fromPath);
    assert "To-Path"[0] == 'T' && "From-Path"[0] == 'F';
    assert ':' !in "To-Path" && '\r' !in "To-Path" && ':' !in "From-Path" && '\r' !in "From-Path";
  }

  lemma AllSafe(a: Assoc<string, seq<string>>, b: Assoc<string, seq<string>>)
    requires forall i :: 0 <= i < |a| ==> LineSafe(a[i])
    requires forall i :: 0 <= i < |b| ==> LineSafe(b[i])
    ensures forall i :: 0 <= i < |a + b| ==> LineSafe((a + b)[i])
  {
    forall i | 0 <= i < |a + b| ensures LineSafe((a + b)[i]) {
      if i >= |a| {
        assert (a + b)[i] == b[i - |a|];
      }
    }
  }

  lemma LinesSafe(s: Msg)
    requires Sendable(s)
    ensures forall i :: 0 <= i < |Lines(s)| ==> LineSafe(Lines(s)[i])
  {
    PathLinesSafe(s);
    AllSafe(PathLines(s), s.headers);
    if HasBody(s) {
      var ct := s.contentType.value;
      assert Join([ct], " ") == ct;
      assert ':' !in "Content-Type" && '\r' !in "Content-Type" && "Content-Type"[0] == 'C';
    }
    AllSafe(PathLines(s) + s.headers, ContentTypeLines(s));
  }

  lemma ResponseLinesSafe(s: Msg)
    requires Answerable(s)
    ensures forall i :: 0 <= i < |PathLines(s) + s.headers| ==> LineSafe((PathLines(s) + s.headers)[i])
  {
    PathLinesSafe(s);
    AllSafe(PathLines(s), s.headers);
  }

  // ---------------------------------------------------------------------
  // the body and the flag

  lemma {:induction false} IndexOfShifted(msg: string, from: nat, u: string, pat: string, i: nat, j: nat)
    requires |pat| > 0 && from + |u| <= |msg| && msg[from..from + |u|] == u
    requires i <= j && j + |pat| <= |u| && u[j..j + |pat|] == pat
    requires forall k :: i <= k < j ==> !OccursAt(u, pat, k)
    ensures IndexOf(msg, pat, from + i) == from + j
    decreases j - i
  {
    assert msg[from + i..from + i + |pat|] == u[i..i + |pat|] by {
      forall k | i <= k < i + |pat| ensures msg[from + k] == u[k] {
        assert msg[from..from + |u|][k] == u[k];
      }
    }
    if i < j {
      assert !OccursAt(u, pat, i);
      IndexOfShifted(msg, from, u, pat, i + 1, j);
    }
  }

  /** A search inside a window of the text finds what the search of the window finds. */
  lemma IndexOfWithin(msg: string, from: nat, u: string, pat: string, j: nat)
    requires |pat| > 0 && from + |u| <= |msg| && msg[from..from + |u|] == u
    requires IndexOf(u, pat, 0) == j && j + |pat| <= |u|
    ensures IndexOf(msg, pat, from) == from + j
  {
    IndexOfFirst(u, pat, 0);
    IndexOfShifted(msg, from, u, pat, 0, j);
  }

  lemma BodyAt(f: Frame, msg: string, q: nat, m: Msg, b: string, flag: string)
    requires |flag| == 1 && Substr(msg, q, 2) == CRLF
    requires IndexOf(msg, CRLF + EndLineNoFlag(m), q + 2) == q + 2 + |b|
    requires q + 2 + |b| + 2 + |EndLineNoFlag(m)| < |msg|
    requires msg[q + 2..q + 2 + |b|] == b && msg[q + 2 + |b| + 2 + |EndLineNoFlag(m)|] == flag[0]
    ensures WithBody(f, msg, q, m)
      == Some(m.(body := Some(if f.BinaryFrame? then Binary(b) else Text(b)), flag := flag))
  {
    assert flag == [flag[0]];
  }

  lemma WithBodyOf(f: Frame, msg: string, q: nat, m: Msg, b: string, flag: string)
    requires |flag| == 1
    requires var t := CRLF + b + CRLF + EndLineNoFlag(m) + flag + CRLF;
      q + |t| <= |msg| && msg[q..q + |t|] == t
    requires BodySafe(b, EndLineNoFlag(m))
    ensures WithBody(f, msg, q, m)
      == Some(m.(body := Some(if f.BinaryFrame? then Binary(b) else Text(b)), flag := flag))
  {
    BodyFacts(msg, q, EndLineNoFlag(m), b, flag);
    BodyAt(f, msg, q, m, b, flag);
  }

  /** Where the body, the end-line and the flag of a body section are found. */
  lemma BodyFacts(msg: string, q: nat, eln: string, b: string, flag: string)
    requires |flag| == 1
    requires var t := CRLF + b + CRLF + eln + flag + CRLF;
      q + |t| <= |msg| && msg[q..q + |t|] == t
    requires BodySafe(b, eln)
    ensures Substr(msg, q, 2) == CRLF
    ensures IndexOf(msg, CRLF + eln, q + 2) == q + 2 + |b|
    ensures q + 2 + |b| + 2 + |eln| < |msg|
    ensures msg[q + 2..q + 2 + |b|] == b && msg[q + 2 + |b| + 2 + |eln|] == flag[0]
  {
    var u := b + CRLF + eln;
    BodyRegroup(b, eln, flag);
    BodyWindows(msg, q, u, flag);
    BodyParts(u, b, eln);
    BodyScan(msg, q, u, eln, b);
    SameIndex(msg, q + 2 + |u|, q + 2 + |b| + 2 + |eln|);
  }

  lemma BodyScan(msg: string, q: nat, u: string, eln: string, b: string)
    requires IndexOf(u, CRLF + eln, 0) == |b| && |u| == |b| + 2 + |eln| && u[0..|b|] == b
    requires q + 2 + |u| < |msg| && msg[q..q + 2] == CRLF && msg[q + 2..q + 2 + |u|] == u
    ensures Substr(msg, q, 2) == CRLF
    ensures IndexOf(msg, CRLF + eln, q + 2) == q + 2 + |b|
    ensures msg[q + 2..q + 2 + |b|] == b
  {
    IndexOfWithin(msg, q + 2, u, CRLF + eln, |b|);
    Slice(msg, q + 2, u, 0, |b|);
  }


  lemma SameIndex(msg: string, i: nat, j: nat)
    requires i == j && i < |msg|
    ensures j < |msg| && msg[j] == msg[i]
  {
  }

  lemma BodyParts(u: string, b: string, eln: string)
    requires u == b + CRLF + eln && BodySafe(b, eln)
    ensures IndexOf(u, CRLF + eln, 0) == |b| && |u| == |b| + 2 + |eln| && u[0..|b|] == b
  {
  }


  lemma BodyRegroup(b: string, eln: string, flag: string)
    ensures CRLF + b + CRLF + eln + flag + CRLF == CRLF + (b + CRLF + eln) + flag + CRLF
  {
  }

  lemma BodyWindows(msg: string, q: nat, u: string, flag: string)
    requires |flag| == 1
    requires var t := CRLF + u + flag + CRLF; q + |t| <= |msg| && msg[q..q + |t|] == t
    ensures q + 2 + |u| < |msg|
    ensures msg[q..q + 2] == CRLF && msg[q + 2..q + 2 + |u|] == u && msg[q + 2 + |u|] == flag[0]
  {
    var t := CRLF + u + flag + CRLF;
    Slice(msg, q, t, 0, 2);
    Slice(msg, q, t, 2, 2 + |u|);
    assert msg[q + 2 + |u|] == msg[q..q + |t|][2 + |u|];
  }

  /** A window `t` of `msg` at `q`: each part of `t` is the same part of `msg`, shifted by `q`. */
  lemma Slice(msg: string, q: nat, t: string, i: nat, j: nat)
    requires q + |t| <= |msg| && msg[q..q + |t|] == t && i <= j <= |t|
    ensures msg[q + i..q + j] == t[i..j]
  {
    forall k | i <= k < j ensures msg[q + k] == t[k] {
      assert msg[q..q + |t|][k] == t[k];
    }
  }

  lemma WithoutBodyOf(f: Frame, msg: string, q: nat, m: Msg, flag: string)
    requires |flag| == 1
    requires var t := EndLineNoFlag(m) + flag; q + |t| <= |msg| && msg[q..q + |t|] == t
    ensures WithBody(f, msg, q, m) == Some(m.(flag := flag))
  {
    assert msg[q] == '-';
    assert Substr(msg, q, 2) != CRLF by {
      assert Substr(msg, q, 2)[0] == '-';
    }
    assert msg[q + |EndLineNoFlag(m)|] == flag[0];
    assert flag == [flag[0]];
  }

  lemma ParseSteps(f: Frame, p: nat, m0: Msg, q: nat, m1: Msg)
    requires !f.OtherFrame?
    requires StartLine(FrameOctets(f)) == Some((p, m0))
    requires Headers(FrameOctets(f), p, m0) == Some((q, m1))
    ensures Parse(f) == match KnownHeaders(m1.headers, m1)
      case Threw(e) => Threw(e)
      case Returned(None) => Returned(None)
      case Returned(Some(m2)) => Returned(WithBody(f, FrameOctets(f), q, m2))
  {
  }
}
