/**
 * The MSRP parser (src/parser.js): a WebSocket frame becomes a message, or
 * null when it is malformed. Each routine of the source is a function here;
 * the routines that loop (`parseMessage`'s header loop, `parseKnownHeaders`,
 * `parseWwwAuthenticate`, `parseContentDisposition`) are also methods with
 * those loops, proved equal to the functions.
 *
 * `chomp` is `JsString.Trim`: both strip white space from both ends.
 */
module Parser {
  import opened Wrappers
  import opened JsString
  import opened Assoc
  import opened Message

  /** A WebSocket frame: a string, an ArrayBuffer (one character per byte), or anything else. */
  datatype Frame = TextFrame(text: string) | BinaryFrame(octets: string) | OtherFrame

  // ---------------------------------------------------------------------
  // small helpers

  /** `unq(str)`: one leading and one trailing double quote are dropped. */
  function Unq(s: string): string
  {
    var t := if |s| > 0 && s[0] == '"' then s[1..] else s;
    if |t| > 0 && t[|t| - 1] == '"' then t[..|t| - 1] else t
  }

  /** Whatever the quoted text, `unq` takes off exactly the two quotes around it. */
  lemma UnqQuoted(v: string)
    ensures Unq("\"" + v + "\"") == v
  {
    assert ("\"" + v + "\"")[1..] == v + "\"";
  }

  /** A value that neither starts nor ends with a double quote is left alone. */
  lemma UnqPlain(v: string)
    requires |v| == 0 || (v[0] != '"' && v[|v| - 1] != '"')
    ensures Unq(v) == v
  {
  }

  /** `tokens[2].length === 3 && parseInt(tokens[2], 10)`: a three-character token read as a non-zero number. */
  predicate IsStatusToken(t: string)
  {
    |t| == 3 && ParseInt(t).Some? && ParseInt(t).value != 0
  }

  // ---------------------------------------------------------------------
  // the first line

  /** The first line split at spaces, once a CRLF was found. */
  function StartTokens(msg: string): seq<string>
    requires IndexOf(msg, CRLF, 0) != -1
  {
    Split(Substring(msg, 0, IndexOf(msg, CRLF, 0)), " ")
  }

  /**
   * The first line (parser.js, `parseMessage` before the header loop): the
   * position after its CRLF and the message it starts, or None for null.
   */
  function StartLine(msg: string): (r: Option<(nat, Msg)>)
    ensures r.Some? ==> r.value.0 <= |msg|
  {
    var end := IndexOf(msg, CRLF, 0);
    if end == -1 then None else StartOf(end, StartTokens(msg))
  }

  /** What the tokens of a first line ending at `end` start. */
  function StartOf(end: nat, tokens: seq<string>): (r: Option<(nat, Msg)>)
    ensures r.Some? ==> r.value.0 == end + 2
  {
    if |tokens| < 3 || tokens[0] != "MSRP" || |tokens[1]| == 0 || |tokens[2]| == 0 then None
    else if IsStatusToken(tokens[2]) then
      var comment := if |tokens| > 3 then Some(Join(tokens[3..], " ")) else None;
      Some((end + 2, IncomingResponse(tokens[1], ParseInt(tokens[2]).value, comment)))
    else if |tokens| == 3 then Some((end + 2, IncomingRequest(tokens[1], tokens[2])))
    else None
  }

  /**
   * A first line is accepted exactly when it has at least three tokens, the
   * first 'MSRP', the next two non-empty, and either a status code third or
   * exactly three tokens; it makes a response exactly when the third token
   * is a status code, and the second token is the transaction id.
   */
  lemma StartLineClassifies(msg: string)
    requires IndexOf(msg, CRLF, 0) != -1
    ensures var t := StartTokens(msg);
      (StartLine(msg).Some? <==>
        |t| >= 3 && t[0] == "MSRP" && t[1] != "" && t[2] != "" && (IsStatusToken(t[2]) || |t| == 3))
      && (StartLine(msg).Some? ==>
        StartLine(msg).value.1.tid == t[1]
        && (StartLine(msg).value.1.kind.Response? <==> IsStatusToken(t[2]))
        && (StartLine(msg).value.1.kind.Request? ==> StartLine(msg).value.1.kind.verb == t[2]))
  {
  }

  /** Without any CRLF the frame is not a message. */
  lemma NoCrlfIsNull(msg: string)
    requires IndexOf(msg, CRLF, 0) == -1
    ensures Parse(TextFrame(msg)) == Returned(None) && Parse(BinaryFrame(msg)) == Returned(None)
  {
  }

  // ---------------------------------------------------------------------
  // header lines

  /** What `getNextHeader` answers: 0, -1, or the position after the header it added. */
  datatype Step = Stop | Fail | Next(pos: nat, next: Msg)

  /**
   * `getNextHeader(msg, startIndex, msgObj)`. The colon is searched from the
   * start of the line without a bound, so a line without a colon takes its
   * name from the text up to a colon on a later line.
   */
  function NextHeader(msg: string, start: nat, m: Msg): (r: Step)
    ensures r.Next? ==> start < r.pos <= |msg|
    ensures r.Next? ==> r.next.kind == m.kind && r.next.tid == m.tid && r.next.body == m.body
  {
    var eln := EndLineNoFlag(m);
    if Substr(msg, start, 2) == CRLF || Substr(msg, start, |eln|) == eln then Stop
    else
      var end := IndexOf(msg, CRLF, start);
      if end == -1 then Fail else LineFrom(msg, start, m, end)
  }

  /** The rest of `getNextHeader` once the line end is found at `end`. */
  function LineFrom(msg: string, start: nat, m: Msg, end: nat): (r: Step)
    requires start <= end
    ensures r.Next? ==> start < r.pos && r.pos == end + 2
    ensures r.Next? ==> r.next.kind == m.kind && r.next.tid == m.tid && r.next.body == m.body
  {
    var colon := IndexOf(msg, ":", start);
    if colon == -1 then Fail else NamedLine(m, end, Trim(Substring(msg, start, colon)), Trim(Substring(msg, colon + 1, end)))
  }

  /** The line's name and value once the colon is found: no name is a failure. */
  function NamedLine(m: Msg, end: nat, name: string, value: string): (r: Step)
    ensures r.Next? <==> name != ""
    ensures r.Next? ==> r == Next(end + 2, AddHeader(m, name, value))
  {
    if |name| == 0 then Fail else Next(end + 2, AddHeader(m, name, value))
  }

  /**
   * The header loop of `parseMessage`: header lines are added until a blank
   * line or the end-line; the position reached and the message, or None.
   */
  function Headers(msg: string, start: nat, m: Msg): (r: Option<(nat, Msg)>)
    requires start <= |msg|
    ensures r.Some? ==> start <= r.value.0 <= |msg| && NextHeader(msg, r.value.0, r.value.1).Stop?
    ensures r.Some? ==> r.value.1.kind == m.kind && r.value.1.tid == m.tid && r.value.1.body == m.body
    decreases |msg| - start
  {
    match NextHeader(msg, start, m)
    case Stop => Some((start, m))
    case Fail => None
    case Next(p, m') => Headers(msg, p, m')
  }

  // ---------------------------------------------------------------------
  // the header parsers

  /** `parseMsgId`: exactly one value, whose trimmed text is not empty. */
  function ParseMsgId(values: seq<string>, m: Msg): (r: Option<Msg>)
    ensures r.Some? <==> |values| == 1 && Trim(values[0]) != ""
    ensures r.Some? ==> r.value == m.(messageId := r.value.messageId) && r.value.messageId == Some(Trim(values[0]))
  {
    if |values| != 1 then None
    else
      var id := Trim(values[0]);
      if |id| < 1 then None else Some(m.(messageId := Some(id)))
  }

  /** `parseFailureReport`: 'yes', 'no' or 'partial', in any letter case. */
  function ParseFailureReport(values: seq<string>, m: Msg): (r: Option<Msg>)
    ensures r.Some? ==> r.value == m.(responseOn := r.value.responseOn) && r.value.responseOn.Some?
    ensures r.Some? ==> var on := r.value.responseOn.value; on.success ==> on.failure
    ensures |values| != 1 ==> r.None?
  {
    if |values| != 1 then None
    else
      var v := ToLower(values[0]);
      if v == "yes" then Some(m.(responseOn := Some(ResponseOn(true, true))))
      else if v == "no" then Some(m.(responseOn := Some(ResponseOn(false, false))))
      else if v == "partial" then Some(m.(responseOn := Some(ResponseOn(false, true))))
      else None
  }

  /** The Failure-Report value is read without regard to letter case. */
  lemma FailureReportCaseInsensitive(a: string, b: string, m: Msg)
    requires ToLower(a) == ToLower(b)
    ensures ParseFailureReport([a], m) == ParseFailureReport([b], m)
  {
  }

  /** A range end or total: '*' is -1, anything else goes through `parseInt`. */
  function RangeNumber(s: string): Option<int>
  {
    if s == "*" then Some(-1) else ParseInt(s)
  }

  /** The three fields of 'start-end/total', trimmed: cut at the first '-' and at the first '/' after it. */
  function RangeFieldsOf(v: string): Option<(string, string, string)>
  {
    var dash := IndexOf(v, "-", 0);
    var slash := IndexOf(v, "/", if dash < 0 then 0 else dash);
    if dash == -1 || slash == -1 then None else Some(RangeCut(v, dash, slash))
  }

  /** The trimmed text before `dash`, between `dash` and `slash`, and after `slash`. */
  function RangeCut(v: string, dash: int, slash: int): (string, string, string)
  {
    (Trim(Substring(v, 0, dash)), Trim(Substring(v, dash + 1, slash)), Trim(Substring(v, slash + 1, |v|)))
  }

  /** `parseByteRange`: one value 'start-end/total'. */
  function ParseByteRange(values: seq<string>, m: Msg): (r: Option<Msg>)
    ensures r.Some? ==> r.value == m.(byteRange := r.value.byteRange) && r.value.byteRange.Some?
    ensures |values| != 1 ==> r.None?
  {
    if |values| != 1 then None
    else
      match RangeFieldsOf(values[0])
      case None => None
      case Some((s, e, t)) =>
        var start, end, total := ParseInt(s), RangeNumber(e), RangeNumber(t);
        if start.None? || end.None? || total.None? then None
        else Some(m.(byteRange := Some(ByteRange(start.value, end.value, total.value))))
  }

  /** `parseStatus`: ignored on a response; on a request one value '000 code comment'. */
  function ParseStatus(values: seq<string>, m: Msg): (r: Option<Msg>)
    ensures r.Some? ==> r.value == m.(status := r.value.status, comment := r.value.comment)
    ensures m.kind.Response? ==> r == Some(m)
  {
    if m.kind.Response? then Some(m)
    else if |values| != 1 then None
    else
      var parts := Split(values[0], " ");
      if |parts| < 2 || parts[0] != "000" then None
      else Some(m.(status := ParseInt(parts[1]), comment := Some(Join(parts[2..], " "))))
  }

  /** `parseUsePath`: one value, split at spaces (the split never yields an empty list). */
  function ParseUsePath(values: seq<string>, m: Msg): (r: Option<Msg>)
    ensures r.Some? <==> |values| == 1
    ensures r.Some? ==> r.value == m.(usePath := r.value.usePath) && r.value.usePath.Some? && |r.value.usePath.value| >= 1
  {
    if |values| != 1 then None else Some(m.(usePath := Some(Split(values[0], " "))))
  }

  /** `parseExpires`, used for Expires, Min-Expires and Max-Expires alike. */
  function ParseExpires(values: seq<string>, m: Msg): (r: Option<Msg>)
    ensures r.Some? <==> |values| == 1 && ParseInt(values[0]).Some?
    ensures r.Some? ==> r.value == m.(expires := ParseInt(values[0]))
  {
    if |values| != 1 then None
    else
      var e := ParseInt(values[0]);
      if e.None? then None else Some(m.(expires := e))
  }

  /** The parameters after the disposition type: each must be 'name=value'; later names overwrite. */
  function DispositionParams(parts: seq<string>, acc: Assoc<string, string>): (r: Option<Assoc<string, string>>)
    ensures r.Some? ==> |r.value| >= |acc|
    decreases |parts|
  {
    if parts == [] then Some(acc)
    else
      var kv := Split(parts[0], "=");
      if |kv| != 2 then None
      else DispositionParams(parts[1..], Put(acc, Trim(kv[0]), Unq(Trim(kv[1]))))
  }

  /** `parseContentDisposition`: ignored on a response; on a request one value 'type; name=value; ...'. */
  function ContentDispositionOf(values: seq<string>, m: Msg): (r: Option<Msg>)
    ensures r.Some? ==> r.value == m.(disposition := r.value.disposition)
    ensures m.kind.Response? ==> r == Some(m)
    ensures m.kind.Request? && r.Some? ==> r.value.disposition.Some?
  {
    if m.kind.Response? then Some(m)
    else if |values| != 1 then None
    else
      var parts := Split(values[0], ";");
      match DispositionParams(parts[1..], [])
      case None => None
      case Some(params) => Some(m.(disposition := Some(Disposition(Trim(parts[0]), params))))
  }

  /** The loop of `parseContentDisposition` over the parameters. */
  method ParseContentDisposition(values: seq<string>, m: Msg) returns (r: Option<Msg>)
    ensures r == ContentDispositionOf(values, m)
  {
    if m.kind.Response? {
      return Some(m);
    }
    if |values| != 1 {
      return None;
    }
    var parts := Split(values[0], ";");
    var rest := parts[1..];
    var params: Assoc<string, string> := [];
    for i := 0 to |rest|
      invariant DispositionParams(rest, []) == DispositionParams(rest[i..], params)
    {
      var kv := Split(rest[i], "=");
      if |kv| != 2 {
        return None;
      }
      params := Put(params, Trim(kv[0]), Unq(Trim(kv[1])));
    }
    assert rest[|rest|..] == [];
    r := Some(m.(disposition := Some(Disposition(Trim(parts[0]), params))));
  }

  /**
   * `getNextAuthParam(str, startIndex, obj)`: one 'name=value' or
   * 'name="value"' parameter up to the next comma; the position after it and
   * the parameters with it added, or None for -1.
   */
  function AuthParam(s: string, start: nat, obj: Assoc<string, string>): (r: Option<(nat, Assoc<string, string>)>)
    ensures r.Some? ==> start < r.value.0 <= |s| + 1
  {
    var eq := IndexOf(s, "=", start);
    if eq == -1 then None else AuthValue(s, start, eq, obj)
  }

  /** The rest of `getNextAuthParam` once the '=' is found at `eq`. */
  function AuthValue(s: string, start: nat, eq: nat, obj: Assoc<string, string>): (r: Option<(nat, Assoc<string, string>)>)
    requires start <= eq < |s|
    ensures r.Some? ==> start < r.value.0 <= |s| + 1
  {
    var close := if CharAt(s, eq + 1) == "\"" then IndexOf(s, "\"", eq + 2) else eq + 1;
    if close == -1 then None else AuthTail(s, start, eq, close, obj)
  }

  /** The rest of `getNextAuthParam` once the value is known to end no sooner than `close`. */
  function AuthTail(s: string, start: nat, eq: nat, close: nat, obj: Assoc<string, string>): (r: Option<(nat, Assoc<string, string>)>)
    requires start <= eq < close <= |s|
    ensures r.Some? ==> start < r.value.0 <= |s| + 1
  {
    var comma := IndexOf(s, ",", close);
    var end: nat := if comma == -1 then |s| else comma;
    var name := Trim(Substring(s, start, eq));
    var value := Unq(Trim(Substring(s, eq + 1, end)));
    var next: nat := end + 1;
    if |name| == 0 || |value| == 0 then None
    else Some((next, Put(obj, name, value)))
  }

  /** The parameter loop of `parseWwwAuthenticate`, from position `i` to the end of the value. */
  function AuthParams(s: string, i: nat, obj: Assoc<string, string>): Option<Assoc<string, string>>
    decreases |s| + 1 - i
  {
    if i >= |s| then Some(obj)
    else
      match AuthParam(s, i, obj)
      case None => None
      case Some((j, o)) => AuthParams(s, j, o)
  }

  /** One WWW-Authenticate value: 'Digest ' and its parameters. */
  function Challenge(v: string): Option<Assoc<string, string>>
  {
    if !StartsWith(v, "Digest ") then None else AuthParams(v, 7, [])
  }

  /**
   * `parseWwwAuthenticate`: every value must be a Digest challenge, which is
   * appended to `authenticate`. A request has no `authenticate` list, so
   * the push throws a TypeError.
   */
  function Challenges(values: seq<string>, m: Msg): (r: Outcome<Option<Msg>>)
    ensures r.Returned? && r.value.Some? ==> r.value.value == m.(authenticate := r.value.value.authenticate)
    ensures r.Returned? && r.value.Some? && m.authenticate.Some? ==>
      r.value.value.authenticate.Some? && |r.value.value.authenticate.value| == |m.authenticate.value| + |values|
    ensures r.Threw? ==> m.authenticate.None?
    decreases |values|
  {
    if values == [] then Returned(Some(m))
    else
      match Challenge(values[0])
      case None => Returned(None)
      case Some(c) =>
        if m.authenticate.None? then Threw("TypeError: msgObj.authenticate is undefined")
        else Challenges(values[1..], m.(authenticate := Some(m.authenticate.value + [c])))
  }

  /** The loops of `parseWwwAuthenticate`: over the values, then over each value's parameters. */
  method ParseWwwAuthenticate(values: seq<string>, m: Msg) returns (r: Outcome<Option<Msg>>)
    ensures r == Challenges(values, m)
  {
    var cur := m;
    for i := 0 to |values|
      invariant Challenges(values, m) == Challenges(values[i..], cur)
    {
      var value := values[i];
      assert values[i..][0] == value && values[i..][1..] == values[i + 1..];
      if !StartsWith(value, "Digest ") {
        return Returned(None);
      }
      var params: Assoc<string, string> := [];
      var at: int := 7;
      while at != -1 && at < |value|
        invariant at == -1 || 7 <= at <= |value| + 1
        invariant Challenge(value) == if at == -1 then None else AuthParams(value, at, params)
        decreases if at < 0 then 0 else |value| + 1 - at
      {
        var step := AuthParam(value, at, params);
        if step.None? {
          at := -1;
        } else {
          at, params := step.value.0, step.value.1;
        }
      }
      if at == -1 {
        return Returned(None);
      }
      if cur.authenticate.None? {
        return Threw("TypeError: msgObj.authenticate is undefined");
      }
      cur := cur.(authenticate := Some(cur.authenticate.value + [params]));
    }
    assert values[|values|..] == [];
    r := Returned(Some(cur));
  }

  // ---------------------------------------------------------------------
  // parseKnownHeaders

  /** The parsers of the `headerParsers` table. */
  datatype KnownParser = MsgIdParser | FailureReportParser | ByteRangeParser | StatusParser
    | ContentDispositionParser | WwwAuthenticateParser | UsePathParser | ExpiresParser

  /** `headerParsers[header]`, for the names `addHeader` stores. */
  function HeaderParser(name: string): Option<KnownParser>
  {
    if name == "Message-ID" then Some(MsgIdParser)
    else if name == "Failure-Report" then Some(FailureReportParser)
    else if name == "Byte-Range" then Some(ByteRangeParser)
    else if name == "Status" then Some(StatusParser)
    else if name == "Content-Disposition" then Some(ContentDispositionParser)
    else if name == "WWW-Authenticate" then Some(WwwAuthenticateParser)
    else if name == "Use-Path" then Some(UsePathParser)
    else if name == "Expires" || name == "Min-Expires" || name == "Max-Expires" then Some(ExpiresParser)
    else None
  }

  /** The fields a header parser may not touch. */
  predicate SameFrame(a: Msg, b: Msg)
  {
    a.kind == b.kind && a.tid == b.tid && a.toPath == b.toPath && a.fromPath == b.fromPath
    && a.headers == b.headers && a.contentType == b.contentType && a.body == b.body && a.flag == b.flag
  }

  /** `parseFn(msgObj.headers[header], msgObj)`; true is `Returned(Some(_))`, false `Returned(None)`. */
  function ApplyParser(p: KnownParser, values: seq<string>, m: Msg): (r: Outcome<Option<Msg>>)
    ensures r.Returned? && r.value.Some? ==> SameFrame(r.value.value, m)
  {
    match p
    case MsgIdParser => Returned(ParseMsgId(values, m))
    case FailureReportParser => Returned(ParseFailureReport(values, m))
    case ByteRangeParser => Returned(ParseByteRange(values, m))
    case StatusParser => Returned(ParseStatus(values, m))
    case ContentDispositionParser => Returned(ContentDispositionOf(values, m))
    case WwwAuthenticateParser => Challenges(values, m)
    case UsePathParser => Returned(ParseUsePath(values, m))
    case ExpiresParser => Returned(ParseExpires(values, m))
  }

  /**
   * `parseKnownHeaders`: the known headers of `h`, in table order, each
   * parsed into `m`; unknown headers are skipped, the first failure stops.
   */
  function KnownHeaders(h: Assoc<string, seq<string>>, m: Msg): (r: Outcome<Option<Msg>>)
    ensures r.Returned? && r.value.Some? ==> SameFrame(r.value.value, m)
    ensures (forall i :: 0 <= i < |h| ==> HeaderParser(h[i].0).None?) ==> r == Returned(Some(m))
    decreases |h|
  {
    if h == [] then Returned(Some(m))
    else
      match HeaderParser(h[0].0)
      case None => KnownHeaders(h[1..], m)
      case Some(p) =>
        match ApplyParser(p, h[0].1, m)
        case Returned(Some(m')) => KnownHeaders(h[1..], m')
        case Returned(None) => Returned(None)
        case Threw(e) => Threw(e)
  }

  /** The loop of `parseKnownHeaders` over the header table. */
  method ParseKnownHeaders(m: Msg) returns (r: Outcome<Option<Msg>>)
    ensures r == KnownHeaders(m.headers, m)
  {
    var cur := m;
    var i := 0;
    while i < |m.headers|
      invariant 0 <= i <= |m.headers|
      invariant KnownHeaders(m.headers, m) == KnownHeaders(m.headers[i..], cur)
    {
      var name, values := m.headers[i].0, m.headers[i].1;
      var parser := HeaderParser(name);
      if parser.Some? {
        var out: Outcome<Option<Msg>>;
        if parser.value == WwwAuthenticateParser {
          out := ParseWwwAuthenticate(values, cur);
          ApplySpecial(values, cur);
        } else if parser.value == ContentDispositionParser {
          var d := ParseContentDisposition(values, cur);
          out := Returned(d);
          ApplySpecial(values, cur);
        } else {
          out := ApplyParser(parser.value, values, cur);
        }
        KnownHeadersStep(m.headers, i, cur, out);
        if out.Threw? || out.value.None? {
          return out;
        }
        cur := out.value.value;
      } else {
        KnownHeadersSkip(m.headers, i, cur);
      }
      i := i + 1;
    }
    assert m.headers[|m.headers|..] == [];
    r := Returned(Some(cur));
  }

  /** The two parsers `parseKnownHeaders` runs as loops of their own. */
  lemma ApplySpecial(values: seq<string>, m: Msg)
    ensures ApplyParser(WwwAuthenticateParser, values, m) == Challenges(values, m)
    ensures ApplyParser(ContentDispositionParser, values, m) == Returned(ContentDispositionOf(values, m))
  {
  }

  lemma KnownHeadersStep(h: Assoc<string, seq<string>>, i: nat, m: Msg, out: Outcome<Option<Msg>>)
    requires i < |h| && HeaderParser(h[i].0).Some? && out == ApplyParser(HeaderParser(h[i].0).value, h[i].1, m)
    ensures out.Returned? && out.value.Some? ==> KnownHeaders(h[i..], m) == KnownHeaders(h[i + 1..], out.value.value)
    ensures !(out.Returned? && out.value.Some?) ==> KnownHeaders(h[i..], m) == out
  {
    assert h[i..][0] == h[i] && h[i..][1..] == h[i + 1..];
  }

  lemma KnownHeadersSkip(h: Assoc<string, seq<string>>, i: nat, m: Msg)
    requires i < |h| && HeaderParser(h[i].0).None?
    ensures KnownHeaders(h[i..], m) == KnownHeaders(h[i + 1..], m)
  {
    assert h[i..][0] == h[i] && h[i..][1..] == h[i + 1..];
  }

  // ---------------------------------------------------------------------
  // the body and parseMessage

  /** The octets of a frame: the string itself, or the bytes of the ArrayBuffer. */
  function FrameOctets(f: Frame): string
    requires !f.OtherFrame?
  {
    if f.TextFrame? then f.text else f.octets
  }

  /**
   * The body and the continuation flag: after a blank line, the body runs to
   * CRLF and the end-line without its flag; it is an ArrayBuffer slice for
   * a binary frame and a string otherwise.
   */
  function WithBody(f: Frame, msg: string, start: nat, m: Msg): (r: Option<Msg>)
    ensures r.Some? ==> r.value == m.(body := r.value.body, flag := r.value.flag) && |r.value.flag| <= 1
    ensures Substr(msg, start, 2) != CRLF ==> r.Some? && r.value.body == m.body
  {
    var eln := EndLineNoFlag(m);
    if Substr(msg, start, 2) == CRLF then
      var from := start + 2;
      var end := IndexOf(msg, CRLF + eln, from);
      if end == -1 then None
      else
        var octets := msg[from..end];
        Some(m.(body := Some(if f.BinaryFrame? then Binary(octets) else Text(octets)),
                flag := CharAt(msg, end + 2 + |eln|)))
    else Some(m.(flag := CharAt(msg, start + |eln|)))
  }

  /** `parseMessage(data)`; `Returned(None)` is null and `Threw` an exception that escapes. */
  function Parse(f: Frame): Outcome<Option<Msg>>
  {
    if f.OtherFrame? then Returned(None)
    else
      var msg := FrameOctets(f);
      match StartLine(msg)
      case None => Returned(None)
      case Some((p, m0)) =>
        match Headers(msg, p, m0)
        case None => Returned(None)
        case Some((q, m1)) =>
          match KnownHeaders(m1.headers, m1)
          case Threw(e) => Threw(e)
          case Returned(None) => Returned(None)
          case Returned(Some(m2)) => Returned(WithBody(f, msg, q, m2))
  }

  /** `parseMessage(data)`, with its header loop. */
  method ParseMessage(data: Frame) returns (r: Outcome<Option<Msg>>)
    ensures r == Parse(data)
  {
    if data.OtherFrame? {
      return Returned(None);
    }
    var msg := FrameOctets(data);
    var first := StartLine(msg);
    if first.None? {
      return Returned(None);
    }
    var start, m := first.value.0, first.value.1;
    while true
      invariant start <= |msg|
      invariant Headers(msg, first.value.0, first.value.1) == Headers(msg, start, m)
      decreases |msg| - start
    {
      var step := NextHeader(msg, start, m);
      if step.Stop? {
        break;
      } else if step.Fail? {
        return Returned(None);
      }
      start, m := step.pos, step.next;
    }
    var known := ParseKnownHeaders(m);
    if known.Threw? {
      return Threw(known.reason);
    }
    if known.value.None? {
      return Returned(None);
    }
    r := Returned(WithBody(data, msg, start, known.value.value));
  }

  /** `getNextHeader` on a line that is neither blank nor the end-line, with a CRLF at `end` and the first colon at `colon`. */
  lemma NextHeaderAt(msg: string, start: nat, m: Msg, end: nat, colon: nat)
    requires Substr(msg, start, 2) != CRLF && Substr(msg, start, |EndLineNoFlag(m)|) != EndLineNoFlag(m)
    requires IndexOf(msg, CRLF, start) == end && IndexOf(msg, ":", start) == colon
    requires Trim(Substring(msg, start, colon)) != ""
    ensures NextHeader(msg, start, m)
      == Next(end + 2, AddHeader(m, Trim(Substring(msg, start, colon)), Trim(Substring(msg, colon + 1, end))))
  {
    assert NextHeader(msg, start, m) == LineFrom(msg, start, m, end);
    LineFromIs(msg, start, m, end, colon);
  }

  /** The line from `start` with its first colon at `colon`. */
  lemma LineFromIs(msg: string, start: nat, m: Msg, end: nat, colon: nat)
    requires start <= end && IndexOf(msg, ":", start) == colon
    ensures LineFrom(msg, start, m, end) == NamedLine(m, end, Trim(Substring(msg, start, colon)), Trim(Substring(msg, colon + 1, end)))
  {
  }
  /**
   * A header line without a colon does not end the header: its name runs up
   * to the colon of a later line, and its value is the text between that
   * colon and the first line end, taken in either order by `substring`.
   */
  lemma ColonOnLaterLine(msg: string, start: nat, m: Msg, end: nat, colon: nat)
    requires Substr(msg, start, 2) != CRLF && Substr(msg, start, |EndLineNoFlag(m)|) != EndLineNoFlag(m)
    requires IndexOf(msg, CRLF, start) == end && IndexOf(msg, ":", start) == colon
    requires end < colon && Trim(msg[start..colon]) != ""
    ensures NextHeader(msg, start, m)
      == Next(end + 2, AddHeader(m, Trim(msg[start..colon]), Trim(msg[end..colon + 1])))
  {
    SubstringSlice(msg, start, colon);
    SubstringSwapped(msg, colon + 1, end);
    NextHeaderAt(msg, start, m, end, colon);
  }

  // ---------------------------------------------------------------------
  // what the header parsers read back

  /** Where `parseByteRange` cuts 'a-b/c' when `a` has no '-' and `b` no '/'. */
  lemma RangeFields(a: string, b: string, c: string)
    requires '-' !in a && '/' !in b
    ensures RangeFieldsOf(a + "-" + b + "/" + c) == Some((Trim(a), Trim(b), Trim(c)))
  {
    var v := a + "-" + b + "/" + c;
    var dash, slash := |a|, |a| + 1 + |b|;
    RangeLayout(a, b, c, v, dash, slash);
    IndexOfChar(v, '-', 0, dash);
    IndexOfChar(v, '/', dash, slash);
    RangeFieldsAt(v, dash, slash);
    RangeCutAt(v, dash, slash, a, b, c);
  }

  lemma RangeLayout(a: string, b: string, c: string, v: string, dash: nat, slash: nat)
    requires '-' !in a && '/' !in b
    requires v == a + "-" + b + "/" + c && dash == |a| && slash == |a| + 1 + |b|
    ensures slash < |v| && v[dash] == '-' && v[slash] == '/'
    ensures forall k :: 0 <= k < dash ==> v[k] != '-'
    ensures forall k :: dash <= k < slash ==> v[k] != '/'
    ensures v[0..dash] == a && v[dash + 1..slash] == b && v[slash + 1..|v|] == c
  {
    forall k | 0 <= k < dash ensures v[k] != '-' {
      assert v[k] == a[k];
    }
    forall k | dash < k < slash ensures v[k] != '/' {
      assert v[k] == b[k - dash - 1];
    }
  }

  lemma RangeCutAt(v: string, dash: nat, slash: nat, a: string, b: string, c: string)
    requires dash < slash < |v|
    requires v[0..dash] == a && v[dash + 1..slash] == b && v[slash + 1..|v|] == c
    ensures RangeCut(v, dash, slash) == (Trim(a), Trim(b), Trim(c))
  {
    SubstringSlice(v, 0, dash);
    SubstringSlice(v, dash + 1, slash);
    SubstringSlice(v, slash + 1, |v|);
  }

  lemma RangeFieldsAt(v: string, dash: nat, slash: nat)
    requires IndexOf(v, "-", 0) == dash && IndexOf(v, "/", dash) == slash
    ensures RangeFieldsOf(v) == Some(RangeCut(v, dash, slash))
  {
    assert (if dash < 0 then 0 else dash) == dash;
  }


  /** A number written by `String(n)`, or '*' for a negative total, is trimmed and reads back. */
  lemma RangeNumberOf(n: int)
    ensures var s := IntToString(n); Trim(s) == s && RangeNumber(s) == Some(n)
    ensures Trim("*") == "*" && RangeNumber("*") == Some(-1)
  {
    IntToStringShape(n);
    TrimOfTrimmed(IntToString(n));
    ParseIntToString(n);
  }

  /** 'a-b/c' with readable fields parses into the range of those fields. */
  lemma ParseRange(a: string, b: string, c: string, m: Msg)
    requires '-' !in a && '/' !in b
    requires ParseInt(Trim(a)).Some? && RangeNumber(Trim(b)).Some? && RangeNumber(Trim(c)).Some?
    ensures ParseByteRange([a + "-" + b + "/" + c], m) == Some(m.(byteRange := Some(ByteRange(
      ParseInt(Trim(a)).value, RangeNumber(Trim(b)).value, RangeNumber(Trim(c)).value))))
  {
    RangeFields(a, b, c);
    assert [a + "-" + b + "/" + c][0] == a + "-" + b + "/" + c;
  }

  /** A range written by `encode` reads back, with a '*' total as -1. */
  lemma ByteRangeRoundTrip(r: ByteRange, m: Msg)
    requires r.start >= 0
    ensures ParseByteRange([ByteRangeValue(r)], m)
      == Some(m.(byteRange := Some(ByteRange(r.start, r.end, if r.total < 0 then -1 else r.total))))
  {
    var a, b := IntToString(r.start), IntToString(r.end);
    var c := if r.total < 0 then "*" else IntToString(r.total);
    IntToStringShape(r.start);
    IntToStringShape(r.end);
    assert '-' !in a && '/' !in b;
    RangeNumberOf(r.start);
    RangeNumberOf(r.end);
    RangeNumberOf(r.total);
    assert ParseInt(Trim(a)) == Some(r.start) by {
      ParseIntToString(r.start);
    }
    ParseRange(a, b, c, m);
  }

  /** A negative start is written with a leading '-', which the parser takes for the separator: the range is refused. */
  lemma NegativeStartRefused(r: ByteRange, m: Msg)
    requires r.start < 0
    ensures ParseByteRange([ByteRangeValue(r)], m).None?
  {
    var v := ByteRangeValue(r);
    IntToStringShape(r.start);
    assert v[0] == '-';
    IndexOfChar(v, '-', 0, 0);
    assert Substring(v, 0, 0) == "";
  }

  /** A Status value '000 code comment' on a request reads back the code and the comment. */
  lemma StatusRoundTrip(code: nat, comment: string, m: Msg)
    requires m.kind.Request?
    ensures ParseStatus(["000 " + NatToString(code) + " " + comment], m)
      == Some(m.(status := Some(code), comment := Some(comment)))
  {
    var d := NatToString(code);
    NatToStringNoSpace(code);
    StatusSplit(d, comment);
    ParseIntToString(code);
    StatusParts("000 " + d + " " + comment, d, comment, code, m);
  }

  /** The value '000 d comment', with no space in `d`, splits into "000", `d` and the comment's words. */
  lemma StatusSplit(d: string, comment: string)
    requires ' ' !in d
    ensures Split("000 " + d + " " + comment, " ") == ["000", d] + Split(comment, " ")
  {
    assert "000 " + d + " " + comment == "000" + [' '] + (d + [' '] + comment);
    SplitFirst("000", ' ', d + [' '] + comment);
    SplitFirst(d, ' ', comment);
  }

  /** A Status value that splits into "000", a number and the words of a comment. */
  lemma StatusParts(v: string, d: string, comment: string, code: int, m: Msg)
    requires m.kind.Request? && Split(v, " ") == ["000", d] + Split(comment, " ") && ParseInt(d) == Some(code)
    ensures ParseStatus([v], m) == Some(m.(status := Some(code), comment := Some(comment)))
  {
    var parts := Split(v, " ");
    assert parts[2..] == Split(comment, " ");
    JoinSplit(comment, " ");
  }

  /** A Use-Path of space-free URIs reads back as the same list. */
  lemma UsePathRoundTrip(path: seq<string>, m: Msg)
    requires |path| > 0 && Free(path, ' ')
    ensures ParseUsePath([Join(path, " ")], m) == Some(m.(usePath := Some(path)))
  {
    SplitJoin(path, ' ');
  }

  /** An Expires, Min-Expires or Max-Expires value written by `String(n)` reads back as `n`. */
  lemma ExpiresRoundTrip(n: int, m: Msg)
    ensures ParseExpires([IntToString(n)], m) == Some(m.(expires := Some(n)))
  {
    ParseIntToString(n);
  }

  /** A trimmed, non-empty Message-ID reads back unchanged. */
  lemma MsgIdRoundTrip(id: string, m: Msg)
    requires id != "" && Trimmed(id)
    ensures ParseMsgId([id], m) == Some(m.(messageId := Some(id)))
  {
    TrimOfTrimmed(id);
  }

  /** The three Failure-Report values and the responses each asks for. */
  lemma FailureReportValues(m: Msg)
    ensures ParseFailureReport(["yes"], m) == Some(m.(responseOn := Some(ResponseOn(true, true))))
    ensures ParseFailureReport(["no"], m) == Some(m.(responseOn := Some(ResponseOn(false, false))))
    ensures ParseFailureReport(["partial"], m) == Some(m.(responseOn := Some(ResponseOn(false, true))))
  {
    assert ToLower("yes") == "yes";
    assert ToLower("no") == "no";
    assert ToLower("partial") == "partial";
  }

  /** A disposition type without parameters reads back trimmed, with no parameters. */
  lemma DispositionTypeOnly(kind: string, m: Msg)
    requires m.kind.Request? && ';' !in kind
    ensures ContentDispositionOf([kind], m) == Some(m.(disposition := Some(Disposition(Trim(kind), []))))
  {
    SplitAbsent(kind, ';');
  }

  /** How a Content-Disposition value is cut at ';'. */
  lemma DispositionSplit(v: string, kind: string, rest: seq<string>, m: Msg)
    requires m.kind.Request? && Split(v, ";") == [kind] + rest
    ensures ContentDispositionOf([v], m) == match DispositionParams(rest, [])
      case None => None
      case Some(p) => Some(m.(disposition := Some(Disposition(Trim(kind), p))))
  {
    assert Split(v, ";")[1..] == rest;
  }

  /** A single parameter that splits into two parts at '='. */
  lemma DispositionParam(param: string, name: string, value: string, acc: Assoc<string, string>)
    requires Split(param, "=") == [name, value]
    ensures DispositionParams([param], acc) == Some(Put(acc, Trim(name), Unq(Trim(value))))
  {
    assert [param][1..] == [];
  }

  /** Trimming a space put in front of a trimmed string. */
  lemma TrimSpaced(s: string)
    requires Trimmed(s)
    ensures Trim(" " + s) == s
  {
    assert (" " + s)[1..] == s;
    TrimOfTrimmed(s);
  }

  /**
   * 'type; name=value', as in the disposition 'attachment; filename=' + name
   * of a File, reads back when neither part holds ';' or '=', the name is
   * trimmed and the value trimmed and not quoted.
   */
  lemma DispositionOneParam(kind: string, name: string, value: string, m: Msg)
    requires m.kind.Request? && ';' !in kind
    requires ';' !in name && '=' !in name && Trimmed(name)
    requires ';' !in value && '=' !in value && Trimmed(value)
    requires |value| == 0 || (value[0] != '"' && value[|value| - 1] != '"')
    ensures ContentDispositionOf([kind + "; " + name + "=" + value], m)
      == Some(m.(disposition := Some(Disposition(Trim(kind), [(name, value)]))))
  {
    var param := " " + name + "=" + value;
    var v := kind + [';'] + param;
    assert kind + "; " + name + "=" + value == v;
    assert Split(v, ";") == [kind] + [param] by {
      assert ';' !in param;
      SplitFirst(kind, ';', param);
      SplitAbsent(param, ';');
    }
    assert Split(param, "=") == [" " + name, value] by {
      assert param == (" " + name) + ['='] + value;
      SplitFirst(" " + name, '=', value);
      SplitAbsent(value, '=');
    }
    assert DispositionParams([param], []) == Some([(name, value)]) by {
      DispositionParam(param, " " + name, value, []);
      TrimSpaced(name);
      TrimOfTrimmed(value);
      UnqPlain(value);
    }
    DispositionSplit(v, kind, [param], m);
  }
}
