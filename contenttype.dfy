/**
 * MIME types with parameters (src/ContentType.js): the SDP type selector of
 * RFC 5547 section 5 (`a=file-selector` ... `type:`) and the Content-Type
 * header of RFC 2045 section 5.1.
 *
 * Both parsers move a cursor along the text in `while` loops and assign the
 * object's fields as they go. The parameter loop tests the character at the
 * cursor left by the previous parameter, which is a closing quote, a space
 * or the end of the text and never ';', so at most one parameter is read.
 */
module ContentTypes {
  import opened Wrappers
  import opened JsString
  import opened Assoc
  import opened Util

  /** The fields of a `ContentType`: type, subtype and the parameters in insertion order. */
  datatype Mime = Mime(mediaType: string, subtype: string, params: Assoc<string, string>)

  /** The fields of `new ContentType()`. */
  const Empty := Mime("", "", [])

  /** Which serialiser: the SDP selector's filename encoding, or the header's quoted-string. */
  datatype Style = Selector | Header

  // ---------------------------------------------------------------------
  // the parsers, as functions of the text and the fields before

  /** Lines 51-57 and 127-133: the subtype runs from `from` up to the first ';' or the end. */
  function SubtypeEnd(s: string, from: nat): (e: nat)
    requires from <= |s|
    ensures from <= e <= |s| && ';' !in s[from..e] && (e < |s| ==> s[e] == ';')
    decreases |s| - from
  {
    if from == |s| || s[from] == ';' then from
    else
      var e := SubtypeEnd(s, from + 1);
      assert s[from..e] == [s[from]] + s[from + 1..e];
      e
  }

  /**
   * `parseSdpTypeSelector` or `parseContentTypeHeader` on an object whose
   * fields were `prev`: nothing changes without a '/'; otherwise the type,
   * the subtype and at most one parameter after the first ';'.
   */
  function Parsed(style: Style, prev: Mime, s: string): Mime
  {
    var slash := IndexOf(s, "/", 0);
    if slash == -1 then prev else Slashed(style, s, slash)
  }

  /** The fields parsed from `s` whose first '/' is at `slash`. */
  function Slashed(style: Style, s: string, slash: nat): Mime
    requires slash < |s|
  {
    var e := SubtypeEnd(s, slash + 1);
    Mime(s[..slash], s[slash + 1..e], if e == |s| then [] else Param(style, s, e + 1))
  }

  /**
   * Lines 63-90 and 139-176, first round: the name runs from `pos` to the
   * first '='. A missing '=' or quote leaves no parameter.
   */
  function Param(style: Style, s: string, pos: nat): Assoc<string, string>
    requires pos <= |s|
  {
    var eq := IndexOf(s, "=", pos);
    if eq == -1 then []
    else
      var v := Value(style, s, eq + 1);
      if v.None? then [] else [(s[pos..eq], v.value)]
  }

  /** The decoded value that starts at `p`, just after the '=', or None where the source returns. */
  function Value(style: Style, s: string, p: nat): Option<string>
  {
    match style
    case Selector => SelectorValueAt(s, p)
    case Header => HeaderValueAt(s, p)
  }

  /** Lines 74-89: a selector value is quoted, and decoded as an SDP filename. */
  function SelectorValueAt(s: string, p: nat): Option<string>
  {
    if CharAt(s, p) != "\"" then None
    else
      var close := IndexOf(s, "\"", p + 1);
      if close == -1 then None else Some(DecodeSdpFileName(s[p + 1..close]))
  }

  /**
   * Lines 150-175: a header value is quoted, ending at a '"' that is not
   * after a '\', or runs to the next space or the end; it goes through
   * `decodeQuotedString`.
   */
  function HeaderValueAt(s: string, p: nat): Option<string>
  {
    if CharAt(s, p) == "\"" then
      var close := QuotedClose(s, p + 1);
      if close == -1 then None else Some(RemoveFirst(s[p + 1..close], '\\'))
    else if p <= |s| then
      var close := UnquotedEnd(s, p);
      Some(RemoveFirst(s[p..close], '\\'))
    else None
  }

  /** Lines 152-165: the closing quote of a value that starts at `from`, or -1. */
  function QuotedClose(s: string, from: nat): (r: int)
    ensures r == -1 || (from <= r < |s| && s[r] == '"')
  {
    var open := IndexOf(s, "\"", from);
    if open == -1 then -1
    else
      assert s[open..open + 1] == "\"";
      Unescaped(s, open)
  }

  /** Lines 158-165: from a '"', the first one on that is not right after a '\', or -1. */
  function Unescaped(s: string, close: nat): (r: int)
    requires close < |s| && s[close] == '"'
    ensures r == -1 || (close <= r < |s| && s[r] == '"' && (r == 0 || s[r - 1] != '\\'))
    decreases |s| - close
  {
    if close > 0 && s[close - 1] == '\\' then
      var next := IndexOf(s, "\"", close + 1);
      if next == -1 then -1
      else
        assert s[next..next + 1] == "\"";
        Unescaped(s, next)
    else close
  }

  /** Lines 167-170: an unquoted value ends at the next space, or at the end. */
  function UnquotedEnd(s: string, from: nat): (e: nat)
    requires from <= |s|
    ensures from <= e <= |s|
  {
    var sp := IndexOf(s, " ", from);
    if sp == -1 then |s| else sp
  }

  // ---------------------------------------------------------------------
  // the serialisers

  /**
   * How a value's characters are escaped: `encodeSdpFileName`, which escapes
   * each character on its own (`Util.EncodeSdpFileNameIsPerChar`), or
   * `encodeQuotedString`.
   */
  function Escape(style: Style): char -> string
  {
    match style
    case Selector => EscapeFileNameChar
    case Header => QuoteChar
  }

  /** Lines 102-103 and 188-189: one parameter as `;name="value"`, the value encoded. */
  function ParamText(style: Style, p: (string, string)): string
  {
    ";" + p.0 + "=\"" + ConcatMap(p.1, Escape(style)) + "\""
  }

  /** One `;name="value"` per parameter, in order. */
  function ParamsText(style: Style, ps: Assoc<string, string>): string
  {
    if ps == [] then "" else ParamsText(style, ps[..|ps| - 1]) + ParamText(style, ps[|ps| - 1])
  }

  /** `toSdpTypeSelector()` or `toContentTypeHeader()`. */
  function Text(style: Style, m: Mime): string
  {
    m.mediaType + "/" + m.subtype + ParamsText(style, m.params)
  }

  // ---------------------------------------------------------------------
  // the object

  class ContentType {
    var mediaType: string
    var subtype: string
    var params: Assoc<string, string>

    function Fields(): Mime
      reads this
    {
      Mime(mediaType, subtype, params)
    }

    /** `new ContentType()` */
    constructor ()
      ensures Fields() == Empty
    {
      mediaType, subtype, params := "", "", [];
    }

    /** `parseSdpTypeSelector(selector)` */
    method ParseSdpTypeSelector(selector: string)
      modifies this
      ensures Fields() == Parsed(Selector, old(Fields()), selector)
    {
      var position, endIndex := ParseHead(selector);
      if endIndex != -1 {
        params := ParamRounds(Selector, selector, endIndex);
        ParsedSlashed(Selector, old(Fields()), selector);
        SlashedIs(Selector, selector, IndexOf(selector, "/", 0), endIndex);
      }
    }

    /**
     * Lines 38-62 and 114-138: the type and the subtype, with the parameters
     * emptied. `endIndex` is -1 when there is no '/' and nothing was assigned;
     * otherwise it is the end of the subtype and `position` one past it.
     */
    method ParseHead(s: string) returns (position: nat, endIndex: int)
      modifies this
      ensures endIndex == -1 <==> IndexOf(s, "/", 0) == -1
      ensures endIndex == -1 ==> Fields() == old(Fields())
      ensures endIndex != -1 ==> var slash := IndexOf(s, "/", 0);
        && endIndex == SubtypeEnd(s, slash + 1) && position == endIndex + 1
        && Fields() == Mime(s[..slash], s[slash + 1..endIndex], [])
    {
      position := 0;
      endIndex := IndexOf(s, "/", position);
      if endIndex == -1 {
        return;
      }
      mediaType := s[position..endIndex];
      position := endIndex + 1;
      endIndex := position;
      while endIndex < |s|
        invariant position <= endIndex <= |s|
        invariant ';' !in s[position..endIndex]
        decreases |s| - endIndex
      {
        if s[endIndex] == ';' {
          break;
        }
        assert s[position..endIndex + 1] == s[position..endIndex] + [s[endIndex]];
        endIndex := endIndex + 1;
      }
      SubtypeEndIs(s, position, endIndex);
      subtype := s[position..endIndex];
      position := endIndex + 1;
      params := [];
    }

    /** `parseContentTypeHeader(header)` */
    method ParseContentTypeHeader(header: string)
      modifies this
      ensures Fields() == Parsed(Header, old(Fields()), header)
    {
      var position, endIndex := ParseHead(header);
      if endIndex != -1 {
        params := ParamRounds(Header, header, endIndex);
        ParsedSlashed(Header, old(Fields()), header);
        SlashedIs(Header, header, IndexOf(header, "/", 0), endIndex);
      }
    }

    /** `toSdpTypeSelector()` */
    method ToSdpTypeSelector() returns (selector: string)
      ensures selector == Text(Selector, Fields())
    {
      selector := mediaType + "/" + subtype;
      var i := 0;
      while i < |params|
        invariant 0 <= i <= |params|
        invariant selector == mediaType + "/" + subtype + ParamsText(Selector, params[..i])
      {
        ParamsTextSnoc(Selector, params, i);
        SelectorParamText(params[i]);
        Associate(mediaType + "/" + subtype, ParamsText(Selector, params[..i]), ParamText(Selector, params[i]));
        selector := selector + (";" + params[i].0 + "=\"" + EncodeSdpFileName(params[i].1) + "\"");
        i := i + 1;
      }
      assert params[..|params|] == params;
    }

    /** `toContentTypeHeader()` */
    method ToContentTypeHeader() returns (header: string)
      ensures header == Text(Header, Fields())
    {
      header := mediaType + "/" + subtype;
      var i := 0;
      while i < |params|
        invariant 0 <= i <= |params|
        invariant header == mediaType + "/" + subtype + ParamsText(Header, params[..i])
      {
        ParamsTextSnoc(Header, params, i);
        HeaderParamText(params[i]);
        Associate(mediaType + "/" + subtype, ParamsText(Header, params[..i]), ParamText(Header, params[i]));
        var encoded := EncodeQuotedString(params[i].1);
        header := header + (";" + params[i].0 + "=\"" + encoded + "\"");
        i := i + 1;
      }
      assert params[..|params|] == params;
    }
  }

  /**
   * Lines 61-90 and 137-176: the parameter loop, entered with `endIndex` at
   * the end of the subtype. Each round reads one parameter and leaves
   * `endIndex` on a closing quote, a space or the end, so the loop test
   * fails after the first round; a round that finds no '=' or no quote
   * returns with what was read before it.
   */
  method ParamRounds(style: Style, s: string, e: nat) returns (params: Assoc<string, string>)
    requires e <= |s| && (e < |s| ==> s[e] == ';')
    ensures params == if e < |s| then Param(style, s, e + 1) else []
  {
    params := [];
    var endIndex, position := e, e + 1;
    ghost var rounds := 0;
    while CharAt(s, endIndex) == ";"
      invariant 0 <= endIndex <= |s| && rounds <= 1
      invariant rounds == 0 ==> endIndex == e && position == e + 1 && params == []
      invariant rounds == 1 ==> e < |s| && CharAt(s, endIndex) != ";" && params == Param(style, s, e + 1)
      decreases 1 - rounds
    {
      var ok, param, value;
      ok, param, value, endIndex := ParamRound(style, s, position);
      if !ok {
        return;
      }
      position := endIndex + 1;
      params := Put(params, param, value);
      rounds := rounds + 1;
    }
  }

  /**
   * One round of the parameter loop from `position`: the name, the decoded
   * value and where the value ended, or `ok` false where the source returns.
   */
  method ParamRound(style: Style, s: string, position: nat) returns (ok: bool, param: string, value: string, endIndex: int)
    requires position <= |s|
    ensures ok <==> Param(style, s, position) != []
    ensures ok ==> Param(style, s, position) == [(param, value)]
    ensures ok ==> 0 <= endIndex <= |s| && CharAt(s, endIndex) != ";"
  {
    value := "";
    endIndex := IndexOf(s, "=", position);
    if endIndex == -1 {
      return false, "", "", endIndex;
    }
    param := s[position..endIndex];
    var eq := endIndex;
    if style == Selector {
      ok, value, endIndex := SelectorValue(s, eq + 1);
    } else {
      ok, value, endIndex := HeaderValue(s, eq + 1);
    }
    ParamIs(style, s, position, eq);
  }

  /** Lines 74-89, one step at a time. */
  method SelectorValue(s: string, position: nat) returns (ok: bool, value: string, endIndex: int)
    ensures ok <==> SelectorValueAt(s, position).Some?
    ensures ok ==> value == SelectorValueAt(s, position).value
    ensures ok ==> 0 <= endIndex < |s| && CharAt(s, endIndex) == "\""
  {
    value := "";
    if CharAt(s, position) != "\"" {
      return false, "", -1;
    }
    var start := position + 1;
    endIndex := IndexOf(s, "\"", start);
    if endIndex == -1 {
      return false, "", -1;
    }
    assert s[endIndex..endIndex + 1] == "\"";
    value := DecodeSdpFileName(s[start..endIndex]);
    ok := true;
  }

  /** Lines 150-175, one step at a time. */
  method HeaderValue(s: string, position: nat) returns (ok: bool, value: string, endIndex: int)
    requires position <= |s|
    ensures ok <==> HeaderValueAt(s, position).Some?
    ensures ok ==> value == HeaderValueAt(s, position).value
    ensures ok ==> 0 <= endIndex <= |s| && CharAt(s, endIndex) != ";"
  {
    var start := position;
    value := "";
    if CharAt(s, start) == "\"" {
      start := start + 1;
      endIndex := QuotedEnd(s, start);
      if endIndex == -1 {
        return false, "", -1;
      }
    } else {
      endIndex := IndexOf(s, " ", start);
      if endIndex == -1 {
        endIndex := |s|;
      } else {
        assert s[endIndex..endIndex + 1] == " ";
      }
    }
    value := DecodeQuotedString(s[start..endIndex]);
    ok := true;
  }

  /**
   * Lines 150-165: the end of a quoted value whose opening quote is just
   * before `position`, or -1 when no closing quote is found.
   */
  method QuotedEnd(header: string, position: nat) returns (endIndex: int)
    requires 0 < position <= |header| && header[position - 1] == '"'
    ensures endIndex == QuotedClose(header, position)
    ensures endIndex != -1 ==> position <= endIndex < |header|
  {
    endIndex := IndexOf(header, "\"", position);
    if endIndex == -1 {
      return;
    }
    assert header[endIndex..endIndex + 1] == "\"";
    ghost var open := endIndex;
    while CharAt(header, endIndex - 1) == "\\"
      invariant position <= endIndex < |header| && header[endIndex] == '"'
      invariant Unescaped(header, endIndex) == Unescaped(header, open)
      decreases |header| - endIndex
    {
      endIndex := IndexOf(header, "\"", endIndex + 1);
      if endIndex == -1 {
        return;
      }
      assert header[endIndex..endIndex + 1] == "\"";
    }
  }

  lemma ParsedSlashed(style: Style, prev: Mime, s: string)
    requires IndexOf(s, "/", 0) != -1
    ensures Parsed(style, prev, s) == Slashed(style, s, IndexOf(s, "/", 0))
  {
  }

  lemma ParamIs(style: Style, s: string, pos: nat, eq: nat)
    requires pos <= |s| && IndexOf(s, "=", pos) == eq
    ensures Param(style, s, pos) == if Value(style, s, eq + 1).None? then [] else [(s[pos..eq], Value(style, s, eq + 1).value)]
  {
  }

  lemma SlashedIs(style: Style, s: string, slash: nat, e: nat)
    requires slash < |s| && e == SubtypeEnd(s, slash + 1)
    ensures Slashed(style, s, slash).mediaType == s[..slash]
    ensures Slashed(style, s, slash).subtype == s[slash + 1..e]
    ensures Slashed(style, s, slash).params == if e == |s| then [] else Param(style, s, e + 1)
  {
  }

  /** One more parameter adds its `;name="value"` at the end. */
  lemma ParamsTextSnoc(style: Style, ps: Assoc<string, string>, i: nat)
    requires i < |ps|
    ensures ParamsText(style, ps[..i + 1]) == ParamsText(style, ps[..i]) + ParamText(style, ps[i])
  {
    assert ps[..i + 1][..i] == ps[..i];
  }

  lemma SelectorParamText(p: (string, string))
    ensures ParamText(Selector, p) == ";" + p.0 + "=\"" + EncodeSdpFileName(p.1) + "\""
  {
    EncodeSdpFileNameIsPerChar(p.1);
  }

  lemma HeaderParamText(p: (string, string))
    ensures ParamText(Header, p) == ";" + p.0 + "=\"" + ConcatMap(p.1, QuoteChar) + "\""
  {
  }

  lemma Associate(a: string, b: string, c: string)
    ensures (a + b) + c == a + (b + c)
  {
  }

  /** The subtype loop stops where `SubtypeEnd` says. */
  lemma {:induction false} SubtypeEndIs(s: string, from: nat, e: nat)
    requires from <= e <= |s| && ';' !in s[from..e] && (e < |s| ==> s[e] == ';')
    ensures SubtypeEnd(s, from) == e
    decreases e - from
  {
    if from < e {
      assert s[from] in s[from..e];
      assert s[from + 1..e] == s[from..e][1..];
      SubtypeEndIs(s, from + 1, e);
    }
  }
}
