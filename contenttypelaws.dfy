/**
 * What the `ContentType` parsers make of text: the type and subtype split,
 * the lone parameter, and the round trips through the two serialisers.
 */
module ContentTypeLaws {
  import opened Wrappers
  import opened JsString
  import opened Assoc
  import opened Util
  import opened ContentTypes

  // ---------------------------------------------------------------------
  // unfolding the parser one named position at a time

  lemma SelectorValueIs(s: string, p: nat, close: nat)
    requires CharAt(s, p) == "\"" && IndexOf(s, "\"", p + 1) == close
    ensures Value(Selector, s, p) == Some(DecodeSdpFileName(s[p + 1..close]))
  {
  }

  lemma QuotedCloseIs(s: string, from: nat, open: nat)
    requires IndexOf(s, "\"", from) == open
    ensures open < |s| && s[open] == '"'
    ensures QuotedClose(s, from) == Unescaped(s, open)
  {
    assert OccursAt(s, "\"", open);
    assert s[open..open + 1] == "\"";
  }

  lemma HeaderQuotedIs(s: string, p: nat, close: nat)
    requires CharAt(s, p) == "\"" && QuotedClose(s, p + 1) == close
    ensures Value(Header, s, p) == Some(RemoveFirst(s[p + 1..close], '\\'))
  {
  }

  lemma HeaderUnquotedIs(s: string, p: nat, close: nat)
    requires p <= |s| && CharAt(s, p) != "\"" && UnquotedEnd(s, p) == close
    ensures Value(Header, s, p) == Some(RemoveFirst(s[p..close], '\\'))
  {
  }

  /** No character of `s` needs quoting. */
  predicate Plain(s: string)
  {
    forall i :: 0 <= i < |s| ==> !NeedsQuoting(s[i])
  }

  lemma {:induction false} PlainUnquoted(s: string)
    requires Plain(s)
    ensures QuotedCount(s) == 0
    decreases |s|
  {
    if s != [] {
      assert Plain(s[1..]) by {
        forall i | 0 <= i < |s[1..]|
          ensures !NeedsQuoting(s[1..][i])
        {
          assert s[1..][i] == s[i + 1];
        }
      }
      PlainUnquoted(s[1..]);
    }
  }

  lemma {:induction false} QuoteFree(s: string)
    requires QuotedCount(s) == 0
    ensures '"' !in s && '\\' !in s && '\r' !in s
    decreases |s|
  {
    if s != [] {
      QuoteFree(s[1..]);
      assert s == [s[0]] + s[1..];
    }
  }

  // ---------------------------------------------------------------------
  // one parameter

  /**
   * Where the pieces of `;name="q"` sit in `x + (;name="q" + rest)`: the name
   * from `pos` to the '=' at `eq`, the value from `eq + 2` to the quote at `close`.
   */
  lemma Layout(x: string, n: string, q: string, rest: string, pos: nat, eq: nat, close: nat)
    requires pos == |x| + 1 && eq == pos + |n| && close == eq + 2 + |q|
    ensures var t := x + ((";" + n + "=\"" + q + "\"") + rest);
      && close < |t| && |t| == close + 1 + |rest| && t[eq] == '=' && t[eq + 1] == '"' && t[close] == '"'
      && t[pos..eq] == n && t[eq + 2..close] == q
  {
    var t := x + ((";" + n + "=\"" + q + "\"") + rest);
    assert t[pos..eq] == n by {
      forall k | 0 <= k < |n|
        ensures t[pos + k] == n[k]
      {
      }
    }
    assert t[eq + 2..close] == q by {
      forall k | 0 <= k < |q|
        ensures t[eq + 2 + k] == q[k]
      {
      }
    }
  }

  /** No `c` among the characters of `t` from `from` up to `at`, which hold `w`. */
  lemma Skips(t: string, from: nat, at: nat, w: string, c: char)
    requires from <= at <= |t| && t[from..at] == w && c !in w
    ensures forall k :: from <= k < at ==> t[k] != c
  {
    forall k | from <= k < at
      ensures t[k] != c
    {
      assert t[k] == w[k - from];
    }
  }

  /**
   * In `x + ;name="q" + rest`, the searches from after the ';' find the '='
   * at `eq` and the closing quote at `close` (each position named, so that
   * callers refer to the very same terms).
   */
  lemma Located(x: string, n: string, q: string, rest: string, pos: nat, eq: nat, close: nat)
    requires '=' !in n && '"' !in q
    requires pos == |x| + 1 && eq == pos + |n| && close == eq + 2 + |q|
    ensures var t := x + ((";" + n + "=\"" + q + "\"") + rest);
      && IndexOf(t, "=", pos) == eq && t[eq + 1] == '"' && IndexOf(t, "\"", eq + 2) == close
      && t[pos..eq] == n && t[eq + 2..close] == q && close < |t| && |t| == close + 1 + |rest|
  {
    Layout(x, n, q, rest, pos, eq, close);
    FoundAt(x + ((";" + n + "=\"" + q + "\"") + rest), pos, eq, n, '=');
    FoundAt(x + ((";" + n + "=\"" + q + "\"") + rest), eq + 2, close, q, '"');
  }

  /** A search for `c` from `from` over text `w` that lacks it stops at the `c` at `at`. */
  lemma FoundAt(t: string, from: nat, at: nat, w: string, c: char)
    requires from <= at < |t| && t[from..at] == w && t[at] == c && c !in w
    ensures IndexOf(t, [c], from) == at
  {
    Skips(t, from, at, w, c);
    IndexOfChar(t, c, from, at);
  }

  /**
   * Lines 63-89: a selector parameter written as `;name="encoded value"`,
   * with no '=' in the name, reads back as that one name and value, whatever
   * follows the closing quote.
   */
  lemma SelectorParam(x: string, p: (string, string), rest: string)
    requires '=' !in p.0
    ensures Param(Selector, x + (ParamText(Selector, p) + rest), |x| + 1) == [p]
  {
    var (n, v) := p;
    var e := ConcatMap(v, EscapeFileNameChar);
    Escaped(v);
    var pos, eq := |x| + 1, |x| + 1 + |n|;
    var close := eq + 2 + |e|;
    Located(x, n, e, rest, pos, eq, close);
    SelectorParamAt(x + ((";" + n + "=\"" + e + "\"") + rest), pos, eq, close, v);
  }

  /** The escaped form of a value has no '"' and decodes back to the value. */
  lemma Escaped(v: string)
    ensures var e := ConcatMap(v, EscapeFileNameChar); '"' !in e && DecodeSdpFileName(e) == v
  {
    EncodeSdpFileNameIsPerChar(v);
    EncodedFileNameIsSafe(v);
    SdpFileNameRoundTrip(v);
  }

  /** The selector parameter at named positions: the '=' at `eq`, the closing quote at `close`. */
  lemma SelectorParamAt(t: string, pos: nat, eq: nat, close: nat, v: string)
    requires pos <= eq && eq + 2 <= close < |t|
    requires IndexOf(t, "=", pos) == eq && t[eq + 1] == '"' && IndexOf(t, "\"", eq + 2) == close
    requires DecodeSdpFileName(t[eq + 2..close]) == v
    ensures Param(Selector, t, pos) == [(t[pos..eq], v)]
  {
    assert CharAt(t, eq + 1) == "\"";
    SelectorValueIs(t, eq + 1, close);
    ParamIs(Selector, t, pos, eq);
  }

  /**
   * The text `t` is `x`, then a header parameter `;name="value"` whose name
   * has no '=' and whose value needed no quoting, then `more`; `pos` is just
   * after the ';'.
   */
  predicate HeaderParamWritten(x: string, p: (string, string), more: string, rest: string, t: string, pos: nat)
  {
    '=' !in p.0 && Plain(p.1) && rest == ParamText(Header, p) + more && t == x + rest && pos == |x| + 1
  }

  /**
   * Lines 150-175: a header parameter whose value needed no quoting reads
   * back as that one name and value, whatever follows the closing quote.
   */
  lemma HeaderParam(x: string, p: (string, string), more: string, rest: string, t: string, pos: nat)
    requires HeaderParamWritten(x, p, more, rest, t, pos)
    ensures pos <= |t| && Param(Header, t, pos) == [p]
  {
    var (n, v) := p;
    PlainUnquoted(v);
    ConcatMapQuoteFree(v);
    QuoteFree(v);
    var eq := pos + |n|;
    var close := eq + 2 + |v|;
    Located(x, n, v, more, pos, eq, close);
    HeaderParamAt(t, pos, eq, close, v);
  }

  /** HeaderParam for every written parameter, for use where the text is built of many parts. */
  lemma HeaderParams()
    ensures forall x, p, more, rest, t, pos: nat {:trigger HeaderParamWritten(x, p, more, rest, t, pos)} ::
      HeaderParamWritten(x, p, more, rest, t, pos) ==> pos <= |t| && Param(Header, t, pos) == [p]
  {
    forall x, p, more, rest, t, pos: nat | HeaderParamWritten(x, p, more, rest, t, pos)
      ensures pos <= |t| && Param(Header, t, pos) == [p]
    {
      HeaderParam(x, p, more, rest, t, pos);
    }
  }

  /** The header parameter at named positions, its quoted value free of backslashes. */
  lemma HeaderParamAt(t: string, pos: nat, eq: nat, close: nat, v: string)
    requires pos <= eq && eq + 2 <= close < |t|
    requires IndexOf(t, "=", pos) == eq && t[eq + 1] == '"' && IndexOf(t, "\"", eq + 2) == close
    requires t[eq + 2..close] == v && '\\' !in v
    ensures Param(Header, t, pos) == [(t[pos..eq], v)]
  {
    assert t[close - 1] != '\\' by {
      if v != [] {
        assert t[close - 1] == v[|v| - 1];
      }
    }
    QuotedCloseIs(t, eq + 2, close);
    assert Unescaped(t, close) == close;
    assert CharAt(t, eq + 1) == "\"";
    HeaderQuotedIs(t, eq + 1, close);
    RemoveFirstAbsent(v, '\\');
    ParamIs(Header, t, pos, eq);
  }

  /**
   * Lines 166-171: an unquoted header value runs to the next space or the
   * end of the text; a backslash-free one is kept as written.
   */
  lemma HeaderUnquotedParam(x: string, n: string, v: string, rest: string)
    requires '=' !in n && ' ' !in v && '\\' !in v && (v == [] || v[0] != '"')
    requires rest == [] || rest[0] == ' '
    ensures Param(Header, x + n + "=" + v + rest, |x|) == [(n, v)]
  {
    var t := x + n + "=" + v + rest;
    var pos, eq := |x|, |x| + |n|;
    var close := eq + 1 + |v|;
    UnquotedLayout(x, n, v, rest, pos, eq, close);
    FoundAt(t, pos, eq, n, '=');
    Skips(t, eq + 1, close, v, ' ');
    if rest == [] {
      IndexOfCharAbsent(t, ' ', eq + 1);
    } else {
      IndexOfChar(t, ' ', eq + 1, close);
    }
    HeaderUnquotedAt(t, pos, eq, close, v);
  }

  /** Where the pieces of `name=v` sit in `x + name=v + rest`, `rest` empty or opening with a space. */
  lemma UnquotedLayout(x: string, n: string, v: string, rest: string, pos: nat, eq: nat, close: nat)
    requires pos == |x| && eq == pos + |n| && close == eq + 1 + |v|
    requires (v == [] || v[0] != '"') && (rest == [] || rest[0] == ' ')
    ensures var t := x + n + "=" + v + rest;
      && close <= |t| && t[eq] == '=' && t[pos..eq] == n && t[eq + 1..close] == v
      && (rest == [] ==> close == |t|) && (rest != [] ==> close < |t| && t[close] == ' ')
      && (eq + 1 < |t| ==> t[eq + 1] != '"')
  {
    var t := x + n + "=" + v + rest;
    assert t[pos..eq] == n by {
      forall k | 0 <= k < |n|
        ensures t[pos + k] == n[k]
      {
      }
    }
    assert t[eq + 1..close] == v by {
      forall k | 0 <= k < |v|
        ensures t[eq + 1 + k] == v[k]
      {
      }
    }
  }

  /** The unquoted header value at named positions: after the '=' at `eq`, up to `close`. */
  lemma HeaderUnquotedAt(t: string, pos: nat, eq: nat, close: nat, v: string)
    requires pos <= eq && eq + 1 <= close <= |t|
    requires IndexOf(t, "=", pos) == eq && (eq + 1 < |t| ==> t[eq + 1] != '"')
    requires UnquotedEnd(t, eq + 1) == close && t[eq + 1..close] == v && '\\' !in v
    ensures Param(Header, t, pos) == [(t[pos..eq], v)]
  {
    assert CharAt(t, eq + 1) != "\"";
    HeaderUnquotedIs(t, eq + 1, close);
    RemoveFirstAbsent(v, '\\');
    ParamIs(Header, t, pos, eq);
  }

  /** Lines 65-68 and 141-144: with no '=' after the name's start there is no parameter. */
  lemma NoEquals(style: Style, s: string, pos: nat)
    requires pos <= |s| && forall k :: pos <= k < |s| ==> s[k] != '='
    ensures Param(style, s, pos) == []
  {
    IndexOfCharAbsent(s, '=', pos);
  }

  /** Lines 77-82: a selector value with no closing quote leaves no parameter. */
  lemma SelectorUnclosed(x: string, n: string, v: string)
    requires '=' !in n && '"' !in v
    ensures Param(Selector, x + n + "=\"" + v, |x|) == []
  {
    var t := x + n + "=\"" + v;
    var pos, eq := |x|, |x| + |n|;
    assert t[pos..eq] == n by {
      forall k | 0 <= k < |n|
        ensures t[pos + k] == n[k]
      {
      }
    }
    FoundAt(t, pos, eq, n, '=');
    forall k | eq + 2 <= k < |t|
      ensures t[k] != '"'
    {
      assert t[k] == v[k - eq - 2];
    }
    IndexOfCharAbsent(t, '"', eq + 2);
    assert CharAt(t, eq + 1) == "\"";
    ParamIs(Selector, t, pos, eq);
  }

  /**
   * Lines 158-165 with a value that ends in a backslash: its encoding as the
   * last parameter ends in "\\", the closing quote is taken as escaped, no
   * other quote follows, and the parameter is dropped.
   */
  lemma HeaderTrailingBackslash(x: string, n: string, w: string)
    requires '=' !in n && QuotedCount(w) == 0
    ensures Param(Header, x + ParamText(Header, (n, w + "\\")), |x| + 1) == []
  {
    ConcatMapAppend(w, "\\", QuoteChar);
    ConcatMapQuoteFree(w);
    QuoteFree(w);
    var q := w + "\\\\";
    assert ConcatMap("\\", QuoteChar) == "\\\\";
    HeaderParamText((n, w + "\\"));
    var t := x + ((";" + n + "=\"" + q + "\"") + "");
    assert x + ParamText(Header, (n, w + "\\")) == t;
    var pos, eq := |x| + 1, |x| + 1 + |n|;
    var close := eq + 2 + |q|;
    Located(x, n, q, "", pos, eq, close);
    assert t[close - 1] == q[|q| - 1];
    HeaderUnclosedAt(t, pos, eq, close);
  }

  /** The quoted header value at named positions whose closing quote is escaped and last. */
  lemma HeaderUnclosedAt(t: string, pos: nat, eq: nat, close: nat)
    requires pos <= eq && eq + 2 <= close && close + 1 == |t|
    requires IndexOf(t, "=", pos) == eq && t[eq + 1] == '"' && IndexOf(t, "\"", eq + 2) == close
    requires t[close - 1] == '\\'
    ensures Param(Header, t, pos) == []
  {
    QuotedCloseIs(t, eq + 2, close);
    IndexOfCharAbsent(t, '"', close + 1);
    assert CharAt(t, eq + 1) == "\"";
    ParamIs(Header, t, pos, eq);
  }

  // ---------------------------------------------------------------------
  // the type and subtype

  /** Lines 42-47 and 118-122: without a '/' nothing is parsed and nothing changes. */
  lemma NoSlash(style: Style, prev: Mime, s: string)
    requires '/' !in s
    ensures Parsed(style, prev, s) == prev
  {
    IndexOfCharAbsent(s, '/', 0);
  }

  /**
   * Lines 48-59 and 123-135: the type is the text before the first '/', the
   * subtype the text after it up to the first ';' or the end, whatever the
   * fields were before; a parameter is read after the ';' at `e`.
   */
  lemma Split(style: Style, prev: Mime, mt: string, st: string, rest: string, e: nat)
    requires '/' !in mt && ';' !in st && (rest == [] || rest[0] == ';') && e == |mt| + 1 + |st|
    ensures var m := Parsed(style, prev, mt + "/" + st + rest);
      && m.mediaType == mt && m.subtype == st
      && (rest == [] ==> m.params == [])
      && (rest != [] ==> m.params == Param(style, mt + "/" + st + rest, e + 1))
  {
    var s := mt + "/" + st + rest;
    FirstOf(mt, "/", st + rest);
    assert s == mt + "/" + (st + rest);
    assert s[|mt| + 1..e] == st;
    assert s[..|mt|] == mt;
    assert e < |s| ==> s[e] == rest[0];
    SubtypeEndIs(s, |mt| + 1, e);
    ParsedSlashed(style, prev, s);
    SlashedIs(style, s, |mt|, e);
  }

  // ---------------------------------------------------------------------
  // round trips

  lemma {:induction false} ParamsTextCons(style: Style, ps: Assoc<string, string>)
    requires ps != []
    ensures ParamsText(style, ps) == ParamText(style, ps[0]) + ParamsText(style, ps[1..])
    decreases |ps|
  {
    if |ps| > 1 {
      var init, last, tail := ps[..|ps| - 1], ps[|ps| - 1], ps[1..];
      assert ParamsText(style, ps) == ParamsText(style, init) + ParamText(style, last);
      ParamsTextCons(style, init);
      assert init[0] == ps[0];
      assert init[1..] == tail[..|tail| - 1] && last == tail[|tail| - 1];
      assert ParamsText(style, tail) == ParamsText(style, init[1..]) + ParamText(style, last);
    } else {
      assert ps[1..] == [];
      assert ps[..0] == [];
    }
  }

  /** Lines 42-62 and 118-138: text written from fields without parameters reads back as them. */
  lemma ReadsBare(style: Style, prev: Mime, c: Mime)
    requires '/' !in c.mediaType && ';' !in c.subtype && c.params == []
    ensures Parsed(style, prev, Text(style, c)) == c
  {
    var head := c.mediaType + "/" + c.subtype;
    Split(style, prev, c.mediaType, c.subtype, ParamsText(style, c.params), |head|);
  }

  /**
   * Lines 38-107 with src/util.js:98-117: reading back a selector written by
   * `toSdpTypeSelector` gives its type, its subtype and its first parameter
   * only, when the type has no '/', the subtype no ';' and the first name no '='.
   */
  lemma SelectorKeepsFirst(prev: Mime, c: Mime)
    requires '/' !in c.mediaType && ';' !in c.subtype
    requires c.params != [] ==> '=' !in c.params[0].0
    ensures Parsed(Selector, prev, Text(Selector, c)) == c.(params := c.params[..if c.params == [] then 0 else 1])
  {
    if c.params == [] {
      ReadsBare(Selector, prev, c);
    } else {
      TextCons(Selector, c);
      SelectorFirst(prev, c.mediaType, c.subtype, c.params[0], ParamsText(Selector, c.params[1..]));
      assert c.params[..1] == [c.params[0]];
    }
  }

  /** The text of a type, a subtype, a selector parameter and any text after reads back as the first three. */
  lemma SelectorFirst(prev: Mime, mt: string, st: string, p: (string, string), more: string)
    requires '/' !in mt && ';' !in st && '=' !in p.0
    ensures Parsed(Selector, prev, mt + "/" + st + (ParamText(Selector, p) + more)) == Mime(mt, st, [p])
  {
    var x := mt + "/" + st;
    var rest := ParamText(Selector, p) + more;
    var e := |x|;
    ParamTextOpens(Selector, p, more);
    SelectorParam(x, p, more);
    ReadsFirst(Selector, prev, mt, st, rest, e, p);
  }

  /** A parameter's text, and so any text it begins, opens with ';'. */
  lemma ParamTextOpens(style: Style, p: (string, string), rest: string)
    ensures ParamText(style, p) + rest != [] && (ParamText(style, p) + rest)[0] == ';'
  {
  }

  /** Text that splits at the '/' and whose first parameter reads back as `p`. */
  lemma ReadsFirst(style: Style, prev: Mime, mt: string, st: string, rest: string, e: nat, p: (string, string))
    requires '/' !in mt && ';' !in st && rest != [] && rest[0] == ';' && e == |mt| + 1 + |st|
    requires Param(style, mt + "/" + st + rest, e + 1) == [p]
    ensures Parsed(style, prev, mt + "/" + st + rest) == Mime(mt, st, [p])
  {
    Split(style, prev, mt, st, rest, e);
  }

  /** The text of fields with parameters: the first parameter, then the others. */
  lemma TextCons(style: Style, c: Mime)
    requires c.params != []
    ensures var rest := ParamText(style, c.params[0]) + ParamsText(style, c.params[1..]);
      && Text(style, c) == c.mediaType + "/" + c.subtype + rest && rest != [] && rest[0] == ';'
  {
    ParamsTextCons(style, c.params);
  }

  /** A selector with at most one parameter survives the round trip whole. */
  lemma SelectorRoundTrip(prev: Mime, c: Mime)
    requires '/' !in c.mediaType && ';' !in c.subtype && |c.params| <= 1
    requires c.params != [] ==> '=' !in c.params[0].0
    ensures Parsed(Selector, prev, Text(Selector, c)) == c
  {
    SelectorKeepsFirst(prev, c);
    assert c.params[..|c.params|] == c.params;
  }

  /**
   * Lines 114-193 with src/util.js:68-92: reading back a header written by
   * `toContentTypeHeader` gives its type, its subtype and its first parameter
   * only, when the type has no '/', the subtype no ';', the first name no '='
   * and the first value no character that needed quoting.
   */
  lemma HeaderKeepsFirst(prev: Mime, c: Mime)
    requires '/' !in c.mediaType && ';' !in c.subtype
    requires c.params != [] ==> '=' !in c.params[0].0 && Plain(c.params[0].1)
    ensures Parsed(Header, prev, Text(Header, c)) == c.(params := c.params[..if c.params == [] then 0 else 1])
  {
    if c.params == [] {
      ReadsBare(Header, prev, c);
    } else {
      TextCons(Header, c);
      HeaderFirst(prev, c.mediaType, c.subtype, c.params[0], ParamsText(Header, c.params[1..]),
                  ParamText(Header, c.params[0]) + ParamsText(Header, c.params[1..]), |c.mediaType| + 1 + |c.subtype|);
      assert c.params[..1] == [c.params[0]];
    }
  }

  /** The text of a type, a subtype, a header parameter and any text after reads back as the first three. */
  lemma HeaderFirst(prev: Mime, mt: string, st: string, p: (string, string), more: string, rest: string, e: nat)
    requires '/' !in mt && ';' !in st && '=' !in p.0 && Plain(p.1)
    requires rest == ParamText(Header, p) + more && e == |mt| + 1 + |st|
    ensures Parsed(Header, prev, mt + "/" + st + rest) == Mime(mt, st, [p])
  {
    HeaderParams();
    assert HeaderParamWritten(mt + "/" + st, p, more, rest, mt + "/" + st + rest, e + 1);
    ParamTextOpens(Header, p, more);
    ReadsFirst(Header, prev, mt, st, rest, e, p);
  }

  /** A header with at most one parameter whose value needed no quoting survives the round trip whole. */
  lemma HeaderRoundTrip(prev: Mime, c: Mime)
    requires '/' !in c.mediaType && ';' !in c.subtype && |c.params| <= 1
    requires c.params != [] ==> '=' !in c.params[0].0 && Plain(c.params[0].1)
    ensures Parsed(Header, prev, Text(Header, c)) == c
  {
    HeaderKeepsFirst(prev, c);
    assert c.params[..|c.params|] == c.params;
  }
}
