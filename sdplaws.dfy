/**
 * What the session-description code promises, stated over the model in
 * module Sdp: which texts each part accepts, and that writing a part out and
 * reading it back gives the same part.
 */
module SdpLaws {
  import opened Wrappers
  import opened JsString
  import opened Util
  import opened Assoc
  import opened Sdp

  // ---------------------------------------------------------------------
  // origin and connection

  /** A property that is set to a single word. */
  predicate Word(f: Field)
  {
    f.Some? && ' ' !in f.value
  }

  predicate WordOrigin(o: Origin)
  {
    Word(o.username) && Word(o.id) && Word(o.version) && Word(o.netType) && Word(o.addrType) && Word(o.address)
  }

  function OriginFields(o: Origin): seq<string>
  {
    [FieldText(o.username), FieldText(o.id), FieldText(o.version),
     FieldText(o.netType), FieldText(o.addrType), FieldText(o.address)]
  }

  lemma OriginTextJoins(o: Origin)
    ensures Join(OriginFields(o), " ") == OriginText(o)
  {
    JoinSix(FieldText(o.username), FieldText(o.id), FieldText(o.version),
      FieldText(o.netType), FieldText(o.addrType), FieldText(o.address));
  }

  lemma SixFields(p: seq<string>)
    requires |p| == 6
    ensures p == [p[0], p[1], p[2], p[3], p[4], p[5]]
  {
  }

  lemma JoinSix(a: string, b: string, c: string, d: string, e: string, f: string)
    ensures Join([a, b, c, d, e, f], " ") == a + " " + b + " " + c + " " + d + " " + e + " " + f
  {
    var p := [a, b, c, d, e, f];
    JoinCons(p[0], " ", p[1..]);
    JoinCons(p[1], " ", p[2..]);
    JoinCons(p[2], " ", p[3..]);
    JoinCons(p[3], " ", p[4..]);
    JoinCons(p[4], " ", p[5..]);
  }

  /** An origin of six words, written out and read back by `new Origin`, is the same origin. */
  lemma OriginRoundTrip(o: Origin, now: int)
    requires WordOrigin(o)
    ensures NewOrigin(OriginText(o), now) == o
  {
    var p := OriginFields(o);
    OriginTextJoins(o);
    SplitJoin(p, ' ');
  }

  /** An o line that `parse` accepts is written out again exactly as it was read. */
  lemma OriginTextOfParse(o: Origin, text: string)
    requires ParseOrigin(o, text).0
    ensures OriginText(ParseOrigin(o, text).1) == text
  {
    JoinSplit(text, " ");
    var r := ParseOrigin(o, text).1;
    SixFields(Split(text, " "));
    OriginTextJoins(r);
  }

  predicate WordConnection(c: Connection)
  {
    Word(c.netType) && Word(c.addrType) && Word(c.address)
  }

  function ConnectionFields(c: Connection): seq<string>
  {
    [FieldText(c.netType), FieldText(c.addrType), FieldText(c.address)]
  }

  lemma ConnectionTextJoins(c: Connection)
    ensures Join(ConnectionFields(c), " ") == ConnectionText(c)
  {
    var p := ConnectionFields(c);
    JoinCons(p[0], " ", p[1..]);
    JoinCons(p[1], " ", p[2..]);
  }

  /** A connection of three words, written out and read back by `new Connection`, is the same connection. */
  lemma ConnectionRoundTrip(c: Connection)
    requires WordConnection(c)
    ensures NewConnection(ConnectionText(c)) == c
  {
    ConnectionTextJoins(c);
    SplitJoin(ConnectionFields(c), ' ');
  }

  /** A c line that `parse` accepts is written out again exactly as it was read. */
  lemma ConnectionTextOfParse(c: Connection, text: string)
    requires ParseConnection(c, text).0
    ensures ConnectionText(ParseConnection(c, text).1) == text
  {
    JoinSplit(text, " ");
    var r := ParseConnection(c, text).1;
    assert ConnectionFields(r) == Split(text, " ");
    ConnectionTextJoins(r);
  }

  // ---------------------------------------------------------------------
  // timing

  /**
   * A bound that survives the text: a whole number of seconds whose NTP
   * time is not 0 (which would read back as unbounded), an invalid date, or
   * no bound.
   */
  predicate Representable(t: Time)
  {
    t.Date? && t.ms.Some? ==> t.ms.value % 1000 == 0 && DateToNtpTime(t.ms.value) != 0
  }

  lemma TimeTextWord(t: Time)
    ensures ' ' !in TimeText(t) && '\r' !in TimeText(t)
  {
    if t.Date? && t.ms.Some? {
      IntToStringShape(DateToNtpTime(t.ms.value));
    }
  }

  lemma TimeRoundTrip(t: Time)
    requires Representable(t)
    ensures TimeOf(TimeText(t)) == t
  {
    match t
    case Unbounded =>
    case Date(None) =>
      assert TrimStart("NaN") == "NaN";
      assert DigitRun("NaN") == 0;
    case Date(Some(ms)) =>
      DateTextRoundTrip(ms);
  }

  lemma DateTextRoundTrip(ms: int)
    requires ms % 1000 == 0 && DateToNtpTime(ms) != 0
    ensures TimeOf(IntToString(DateToNtpTime(ms))) == Date(Some(ms))
  {
    var n := DateToNtpTime(ms);
    ParseIntToString(n);
    ParseIntToString(0);
    assert IntToString(n) != IntToString(0);
    assert IntToString(0) == "0";
    NtpRoundTrip(n);
    SecondsBack(ms);
  }

  lemma SecondsBack(ms: int)
    requires ms % 1000 == 0
    ensures (DateToNtpTime(ms) - UnixToNtpOffset) * 1000 == ms
  {
    if ms < 0 {
      assert (-ms) % 1000 == 0;
    }
  }

  /** The text of a timing joins its first line and its repeats with CRLF. */
  lemma {:induction false} EachJoins(h: string, xs: seq<string>)
    ensures Each(h, xs, CRLF, "") == Join([h] + xs, CRLF)
    decreases |xs|
  {
    if xs != [] {
      var init := xs[..|xs| - 1];
      EachJoins(h, init);
      assert [h] + xs == ([h] + init) + [xs[|xs| - 1]];
      JoinSnoc([h] + init, xs[|xs| - 1], CRLF);
    }
  }

  /** The timing a parse makes of two bounds and its repeats. */
  predicate RoundTrips(t: Timing)
  {
    Representable(t.start) && Representable(t.stop) && Free(t.repeat, '\r')
  }

  /** A timing written out by `toString` and read back by `new Timing` is the same timing. */
  lemma TimingRoundTrip(t: Timing)
    requires RoundTrips(t)
    ensures NewTiming(TimingText(t)) == t
  {
    var a, b := TimeText(t.start), TimeText(t.stop);
    TimingLines(t);
    TwoWords(a, b);
    TimeRoundTrip(t.start);
    TimeRoundTrip(t.stop);
  }

  lemma TimingLines(t: Timing)
    requires Free(t.repeat, '\r')
    ensures Split(TimingText(t), CRLF) == [TimeText(t.start) + " " + TimeText(t.stop)] + t.repeat
  {
    var head := TimeText(t.start) + " " + TimeText(t.stop);
    TimeTextWord(t.start);
    TimeTextWord(t.stop);
    EachJoins(head, t.repeat);
    assert Free([head] + t.repeat, '\r');
    SplitJoinCrlf([head] + t.repeat);
  }

  lemma TwoWords(a: string, b: string)
    requires ' ' !in a && ' ' !in b
    ensures Split(a + " " + b, " ") == [a, b]
  {
    SplitFirst(a, ' ', b);
    SplitAbsent(b, ' ');
  }

  // ---------------------------------------------------------------------
  // attributes

  /** An a line `name:value` sets the name, up to the first ':', to the rest of the line. */
  lemma AddValuedAttribute(attrs: Attributes, name: string, value: string)
    requires ':' !in name
    ensures AddAttribute(attrs, name + ":" + value) == Put(attrs, name, Some(value))
  {
    var line := name + ":" + value;
    FirstOf(name, ":", value);
    assert line[..|name|] == name && line[|name| + 1..] == value;
  }

  /** An a line without ':' sets its whole value as a name with the value null. */
  lemma AddBareAttribute(attrs: Attributes, name: string)
    requires ':' !in name
    ensures AddAttribute(attrs, name) == Put(attrs, name, None)
  {
    IndexOfCharAbsent(name, ':', 0);
  }

  /** Adding an attribute keeps each name once, sets the one it names and changes no other. */
  lemma AddAttributeGet(attrs: Attributes, value: string, k: string)
    requires UniqueKeys(attrs)
    ensures UniqueKeys(AddAttribute(attrs, value))
    ensures var ci := IndexOf(value, ":", 0);
      Get(AddAttribute(attrs, value), k)
      == if ci == -1 then (if k == value then Some(None) else Get(attrs, k))
         else (if k == value[..ci] then Some(Some(value[ci + 1..])) else Get(attrs, k))
    ensures var ci := IndexOf(value, ":", 0); ci != -1 ==> ':' !in value[..ci]
  {
    var ci := IndexOf(value, ":", 0);
    IndexOfFirst(value, ":", 0);
    if ci == -1 {
      GetPut(attrs, value, None, k);
      PutKeepsUnique(attrs, value, None);
    } else {
      GetPut(attrs, value[..ci], Some(value[ci + 1..]), k);
      PutKeepsUnique(attrs, value[..ci], Some(value[ci + 1..]));
      forall j | 0 <= j < ci ensures value[..ci][j] != ':' {
        assert !OccursAt(value, ":", j);
        assert value[j..j + 1] == [value[j]];
      }
    }
  }

  // ---------------------------------------------------------------------
  // media

  /** `MediaLines` goes through all the lines exactly when each has a type a media description may hold. */
  lemma {:induction false} MediaLinesAccept(m: Media, lines: seq<string>)
    ensures MediaLines(m, lines).0 <==> forall i :: 0 <= i < |lines| ==> Kind(lines[i]) in MediaKinds
    ensures var r := MediaLines(m, lines).1;
      r.media == m.media && r.port == m.port && r.proto == m.proto && r.format == m.format
    decreases |lines|
  {
    if lines != [] {
      var next := MediaLine(m, lines[0]);
      if next.Some? {
        MediaLinesAccept(next.value, lines[1..]);
        assert forall i :: 1 <= i < |lines| ==> lines[i] == lines[1..][i - 1];
      }
    }
  }

  /**
   * `media.parse` succeeds exactly when its first line has at least four
   * words and every other line a type a media description may hold; the
   * first three words are the media, port and protocol and the rest of the
   * line, spaces and all, is the format.
   */
  lemma ParseMediaAccepts(text: string)
    ensures var lines := Split(text, CRLF); var tokens := Split(lines[0], " ");
      ParseMedia(text).0
      <==> |tokens| >= 4 && forall i :: 1 <= i < |lines| ==> Kind(lines[i]) in MediaKinds
    ensures var lines := Split(text, CRLF); var tokens := Split(lines[0], " "); var m := ParseMedia(text).1;
      |tokens| >= 4 ==>
        m.media == tokens[0] && m.port == tokens[1] && m.proto == tokens[2] && m.format == Join(tokens[3..], " ")
  {
    var lines := Split(text, CRLF);
    var tokens := Split(lines[0], " ");
    if |tokens| >= 4 {
      MediaLinesAccept(MediaHead(tokens), lines[1..]);
      assert forall i :: 1 <= i < |lines| ==> lines[i] == lines[1..][i - 1];
    }
  }

  /** Lines given by a type and each value of a list. */
  function LinesOf(kind: string, xs: seq<string>): seq<string>
  {
    if xs == [] then [] else LinesOf(kind, xs[..|xs| - 1]) + [kind + xs[|xs| - 1]]
  }

  /** The line of a property that is written only when truthy. */
  function OptionalLines(kind: string, f: Option<string>): seq<string>
  {
    if Truthy(f) then [kind + f.value] else []
  }

  /** An attribute as a line: its name, and ':' and its value when the value is truthy. */
  function AttrLine(attr: (string, Option<string>)): string
  {
    "a=" + attr.0 + (if Truthy(attr.1) then ":" + attr.1.value else "")
  }

  function AttrLines(attrs: Attributes): seq<string>
  {
    if attrs == [] then [] else AttrLines(attrs[..|attrs| - 1]) + [AttrLine(attrs[|attrs| - 1])]
  }

  function MediaHeadText(m: Media): string
  {
    m.media + " " + m.port + " " + m.proto + " " + m.format
  }

  function ConnectionLines(c: Option<Connection>): seq<string>
  {
    if c.Some? then ["c=" + ConnectionText(c.value)] else []
  }

  /** The lines of a media description after its first. */
  function MediaSubLines(m: Media): seq<string>
  {
    OptionalLines("i=", m.title) + ConnectionLines(m.connection) + LinesOf("b=", m.bandwidth)
    + OptionalLines("k=", m.key) + AttrLines(m.attributes)
  }

  lemma AppendLine(lines: seq<string>, x: string)
    requires |lines| >= 1
    ensures Join(lines, CRLF) + (CRLF + x) == Join(lines + [x], CRLF)
  {
    JoinSnoc(lines, x, CRLF);
  }

  lemma {:induction false} EachLines(lines: seq<string>, kind: string, xs: seq<string>)
    requires |lines| >= 1
    ensures Each(Join(lines, CRLF), xs, CRLF + kind, "") == Join(lines + LinesOf(kind, xs), CRLF)
    decreases |xs|
  {
    if xs == [] {
      assert lines + [] == lines;
    } else {
      var init, x := xs[..|xs| - 1], xs[|xs| - 1];
      EachLines(lines, kind, init);
      assert CRLF + kind + x + "" == CRLF + (kind + x);
      AppendLine(lines + LinesOf(kind, init), kind + x);
      assert lines + LinesOf(kind, xs) == (lines + LinesOf(kind, init)) + [kind + x];
    }
  }

  lemma OptionalLine(lines: seq<string>, kind: string, f: Option<string>)
    requires |lines| >= 1
    ensures Optional(Join(lines, CRLF), CRLF + kind, f, "") == Join(lines + OptionalLines(kind, f), CRLF)
  {
    if Truthy(f) {
      assert CRLF + kind + f.value + "" == CRLF + (kind + f.value);
      AppendLine(lines, kind + f.value);
    } else {
      assert lines + [] == lines;
    }
  }

  lemma {:induction false} AttrLinesJoin(lines: seq<string>, attrs: Attributes)
    requires |lines| >= 1
    ensures AttributesText(Join(lines, CRLF), attrs, CRLF, "") == Join(lines + AttrLines(attrs), CRLF)
    decreases |attrs|
  {
    if attrs == [] {
      assert lines + [] == lines;
    } else {
      var init, a := attrs[..|attrs| - 1], attrs[|attrs| - 1];
      AttrLinesJoin(lines, init);
      var prefix := lines + AttrLines(init);
      assert AttributeText(Join(prefix, CRLF), a, CRLF, "") == Join(prefix, CRLF) + (CRLF + AttrLine(a));
      AppendLine(prefix, AttrLine(a));
      assert lines + AttrLines(attrs) == prefix + [AttrLine(a)];
    }
  }

  /** The text of a media description: its first line and the others, joined by CRLF. */
  lemma MediaTextLines(m: Media)
    ensures MediaText(m) == Join([MediaHeadText(m)] + MediaSubLines(m), CRLF)
  {
    var l0 := [MediaHeadText(m)];
    var l1 := l0 + OptionalLines("i=", m.title);
    var l2 := l1 + ConnectionLines(m.connection);
    var l3 := l2 + LinesOf("b=", m.bandwidth);
    var l4 := l3 + OptionalLines("k=", m.key);
    OptionalLine(l0, "i=", m.title);
    if m.connection.Some? {
      AppendLine(l1, "c=" + ConnectionText(m.connection.value));
      assert CRLF + "c=" + ConnectionText(m.connection.value) == CRLF + ("c=" + ConnectionText(m.connection.value));
    } else {
      assert l2 == l1;
    }
    EachLines(l2, "b=", m.bandwidth);
    OptionalLine(l3, "k=", m.key);
    assert Join(l4, CRLF) == MediaBodyText(m);
    AttrLinesJoin(l4, m.attributes);
    Regroup([MediaHeadText(m)], OptionalLines("i=", m.title), ConnectionLines(m.connection),
      LinesOf("b=", m.bandwidth), OptionalLines("k=", m.key), AttrLines(m.attributes));
  }

  lemma Nest<T>(a: seq<T>, b: seq<T>, c: seq<T>, d: seq<T>, e: seq<T>)
    ensures a + b + c + d + e == a + (b + (c + (d + e)))
  {
  }

  lemma Regroup<T>(h: seq<T>, a: seq<T>, b: seq<T>, c: seq<T>, d: seq<T>, e: seq<T>)
    ensures h + a + b + c + d + e == h + (a + b + c + d + e)
  {
  }

  /** A line is its two-character type followed by its value. */
  lemma LineParts(kind: string, v: string)
    requires |kind| == 2
    ensures Kind(kind + v) == kind && Value(kind + v) == v
  {
    assert (kind + v)[..2] == kind;
    assert (kind + v)[2..] == v;
  }

  /** Reading lines in two runs: the second run starts where the first stopped, if it went through. */
  lemma {:induction false} MediaLinesAppend(m: Media, xs: seq<string>, ys: seq<string>)
    ensures MediaLines(m, xs + ys) == if MediaLines(m, xs).0 then MediaLines(MediaLines(m, xs).1, ys) else MediaLines(m, xs)
    decreases |xs|
  {
    if xs == [] {
      assert xs + ys == ys;
    } else {
      assert (xs + ys)[0] == xs[0];
      assert (xs + ys)[1..] == xs[1..] + ys;
      var next := MediaLine(m, xs[0]);
      if next.Some? {
        MediaLinesAppend(next.value, xs[1..], ys);
      }
    }
  }

  /** A property that is written out as a line and read back: unset, or set and not empty, without CR. */
  predicate Writable(f: Option<string>)
  {
    f.None? || (Truthy(f) && '\r' !in f.value)
  }

  /** A property that is a single word without CR. */
  predicate WireWord(f: Field)
  {
    Word(f) && '\r' !in f.value
  }

  predicate WireConnection(c: Connection)
  {
    WireWord(c.netType) && WireWord(c.addrType) && WireWord(c.address)
  }

  /** An attribute that survives a round trip: a name without ':' or CR, and a writable value. */
  predicate GoodAttribute(a: (string, Option<string>))
  {
    ':' !in a.0 && '\r' !in a.0 && Writable(a.1)
  }

  predicate GoodAttributes(attrs: Attributes)
  {
    UniqueKeys(attrs) && forall i :: 0 <= i < |attrs| ==> GoodAttribute(attrs[i])
  }

  /**
   * A media description its own text reads back as: the first three fields
   * single words, the format one line, each optional property writable, a
   * connection of three words and attributes that survive.
   */
  predicate WellFormedMedia(m: Media)
  {
    && ' ' !in m.media && ' ' !in m.port && ' ' !in m.proto
    && '\r' !in m.media && '\r' !in m.port && '\r' !in m.proto && '\r' !in m.format
    && Writable(m.title)
    && (m.connection.Some? ==> WireConnection(m.connection.value))
    && Free(m.bandwidth, '\r')
    && Writable(m.key)
    && GoodAttributes(m.attributes)
  }

  lemma TitleLine(m: Media, t: Option<string>)
    requires m.title.None? && Writable(t)
    ensures MediaLines(m, OptionalLines("i=", t)) == (true, m.(title := t))
  {
    if t.Some? {
      LineParts("i=", t.value);
      assert ["i=" + t.value][1..] == [];
    }
  }

  lemma ConnectionLine(m: Media, c: Option<Connection>)
    requires m.connection.None? && (c.Some? ==> WordConnection(c.value))
    ensures MediaLines(m, ConnectionLines(c)) == (true, m.(connection := c))
  {
    if c.Some? {
      LineParts("c=", ConnectionText(c.value));
      ConnectionRoundTrip(c.value);
      assert ConnectionLines(c)[1..] == [];
    }
  }

  lemma KeyLine(m: Media, k: Option<string>)
    requires m.key.None? && Writable(k)
    ensures MediaLines(m, OptionalLines("k=", k)) == (true, m.(key := k))
  {
    if k.Some? {
      LineParts("k=", k.value);
      assert ["k=" + k.value][1..] == [];
    }
  }

  lemma {:induction false} BandwidthLines(m: Media, bs: seq<string>)
    ensures MediaLines(m, LinesOf("b=", bs)) == (true, m.(bandwidth := m.bandwidth + bs))
    decreases |bs|
  {
    if bs == [] {
      assert m.bandwidth + bs == m.bandwidth;
    } else {
      var init, b := bs[..|bs| - 1], bs[|bs| - 1];
      BandwidthLines(m, init);
      MediaLinesAppend(m, LinesOf("b=", init), ["b=" + b]);
      LineParts("b=", b);
      assert ["b=" + b][1..] == [];
      assert m.bandwidth + init + [b] == m.bandwidth + bs;
    }
  }

  lemma {:induction false} AttributeLines(m: Media, attrs: Attributes)
    requires m.attributes == [] && GoodAttributes(attrs)
    ensures MediaLines(m, AttrLines(attrs)) == (true, m.(attributes := attrs))
    decreases |attrs|
  {
    if attrs != [] {
      var init, a := attrs[..|attrs| - 1], attrs[|attrs| - 1];
      assert GoodAttributes(init);
      AttributeLines(m, init);
      MediaLinesAppend(m, AttrLines(init), [AttrLine(a)]);
      assert forall i :: 0 <= i < |init| ==> init[i].0 != a.0;
      AttributeLine(m.(attributes := init), a);
      assert init + [a] == attrs;
    }
  }

  /** The line of a new attribute appends it. */
  lemma AttributeLine(m: Media, a: (string, Option<string>))
    requires GoodAttribute(a) && Get(m.attributes, a.0).None?
    ensures MediaLines(m, [AttrLine(a)]) == (true, m.(attributes := m.attributes + [a]))
  {
    AttrLineAdds(m.attributes, a);
    assert [AttrLine(a)][1..] == [];
  }

  /** An attribute's line is an a line whose value, added to attributes without its name, appends it. */
  lemma AttrLineAdds(attrs: Attributes, a: (string, Option<string>))
    requires GoodAttribute(a) && Get(attrs, a.0).None?
    ensures Kind(AttrLine(a)) == "a=" && AddAttribute(attrs, Value(AttrLine(a))) == attrs + [a]
  {
    if Truthy(a.1) {
      var value := a.0 + ":" + a.1.value;
      assert AttrLine(a) == "a=" + value;
      LineParts("a=", value);
      AddValuedAttribute(attrs, a.0, a.1.value);
    } else {
      assert AttrLine(a) == "a=" + a.0;
      LineParts("a=", a.0);
      AddBareAttribute(attrs, a.0);
    }
    PutNew(attrs, a.0, a.1);
  }

  /** The lines after the first read back, onto the fields of the first, as the media description they came from. */
  lemma SubLinesRead(head: Media, m: Media)
    requires WellFormedMedia(m)
    requires head == DefaultMedia.(media := m.media, port := m.port, proto := m.proto, format := m.format)
    ensures MediaLines(head, MediaSubLines(m)) == (true, m)
  {
    var t, c, b, k, a := OptionalLines("i=", m.title), ConnectionLines(m.connection), LinesOf("b=", m.bandwidth),
      OptionalLines("k=", m.key), AttrLines(m.attributes);
    var m1 := head.(title := m.title);
    var m2 := m1.(connection := m.connection);
    var m3 := m2.(bandwidth := m.bandwidth);
    var m4 := m3.(key := m.key);
    TitleLine(head, m.title);
    ConnectionLine(m1, m.connection);
    BandwidthLines(m2, m.bandwidth);
    assert [] + m.bandwidth == m.bandwidth;
    KeyLine(m3, m.key);
    AttributeLines(m4, m.attributes);
    MediaLinesAppend(head, t, c + (b + (k + a)));
    MediaLinesAppend(m1, c, b + (k + a));
    MediaLinesAppend(m2, b, k + a);
    MediaLinesAppend(m3, k, a);
    Nest(t, c, b, k, a);
    assert MediaLines(m3, k + a) == (true, m);
    assert MediaLines(m2, b + (k + a)) == (true, m);
    assert MediaLines(m1, c + (b + (k + a))) == (true, m);
  }

  lemma FreeConcat(a: seq<string>, b: seq<string>, c: char)
    requires Free(a, c) && Free(b, c)
    ensures Free(a + b, c)
  {
    assert forall i :: |a| <= i < |a + b| ==> (a + b)[i] == b[i - |a|];
  }

  lemma {:induction false} LinesOfFree(kind: string, xs: seq<string>)
    requires '\r' !in kind && Free(xs, '\r')
    ensures Free(LinesOf(kind, xs), '\r')
    decreases |xs|
  {
    if xs != [] {
      LinesOfFree(kind, xs[..|xs| - 1]);
      FreeConcat(LinesOf(kind, xs[..|xs| - 1]), [kind + xs[|xs| - 1]], '\r');
    }
  }

  lemma {:induction false} AttrLinesFree(attrs: Attributes)
    requires forall i :: 0 <= i < |attrs| ==> GoodAttribute(attrs[i])
    ensures Free(AttrLines(attrs), '\r')
    decreases |attrs|
  {
    if attrs != [] {
      AttrLinesFree(attrs[..|attrs| - 1]);
      FreeConcat(AttrLines(attrs[..|attrs| - 1]), [AttrLine(attrs[|attrs| - 1])], '\r');
    }
  }

  lemma SubLinesFree(m: Media)
    requires WellFormedMedia(m)
    ensures Free(MediaSubLines(m), '\r')
  {
    LinesOfFree("b=", m.bandwidth);
    AttrLinesFree(m.attributes);
    var t, c, b, k, a := OptionalLines("i=", m.title), ConnectionLines(m.connection), LinesOf("b=", m.bandwidth),
      OptionalLines("k=", m.key), AttrLines(m.attributes);
    FreeConcat(t, c, '\r');
    FreeConcat(t + c, b, '\r');
    FreeConcat(t + c + b, k, '\r');
    FreeConcat(t + c + b + k, a, '\r');
  }

  /** The first line of a media description splits into its three words and the words of the format. */
  lemma HeadTokens(m: Media)
    requires ' ' !in m.media && ' ' !in m.port && ' ' !in m.proto
    ensures Split(MediaHeadText(m), " ") == [m.media, m.port, m.proto] + Split(m.format, " ")
  {
    var rest2 := m.proto + " " + m.format;
    var rest1 := m.port + " " + rest2;
    assert MediaHeadText(m) == m.media + " " + rest1;
    SplitFirst(m.media, ' ', rest1);
    SplitFirst(m.port, ' ', rest2);
    SplitFirst(m.proto, ' ', m.format);
  }

  lemma MediaTextSplits(m: Media)
    requires WellFormedMedia(m)
    ensures Split(MediaText(m), CRLF) == [MediaHeadText(m)] + MediaSubLines(m)
  {
    MediaTextLines(m);
    SubLinesFree(m);
    FreeConcat([MediaHeadText(m)], MediaSubLines(m), '\r');
    SplitJoinCrlf([MediaHeadText(m)] + MediaSubLines(m));
  }

  /** A media description written out by `toString` and read back by `new Media` is the same description. */
  lemma MediaRoundTrip(m: Media)
    requires WellFormedMedia(m)
    ensures NewMedia(MediaText(m)) == m
  {
    var lines := Split(MediaText(m), CRLF);
    MediaTextSplits(m);
    assert lines[0] == MediaHeadText(m) && lines[1..] == MediaSubLines(m);
    HeadTokens(m);
    var tokens := Split(MediaHeadText(m), " ");
    assert tokens[3..] == Split(m.format, " ");
    JoinSplit(m.format, " ");
    SubLinesRead(MediaHead(tokens), m);
  }

  // ---------------------------------------------------------------------
  // which descriptions a session accepts

  /** The number of leading lines that do not start with `c`. */
  function Until(lines: seq<string>, c: char): (n: nat)
    ensures n <= |lines|
    ensures forall i :: 0 <= i < n ==> !Starts(lines[i], c)
    ensures n < |lines| ==> Starts(lines[n], c)
  {
    if lines == [] || Starts(lines[0], c) then 0
    else
      var n := Until(lines[1..], c);
      assert forall i :: 1 <= i < n + 1 ==> lines[i] == lines[1..][i - 1];
      1 + n
  }

  /** A t line or an r line. */
  predicate Timed(line: string)
  {
    Starts(line, 't') || Starts(line, 'r')
  }

  /** The number of leading t and r lines. */
  function Past(lines: seq<string>): (n: nat)
    ensures n <= |lines|
    ensures forall i :: 0 <= i < n ==> Timed(lines[i])
    ensures n < |lines| ==> !Timed(lines[n])
  {
    if lines == [] || !Timed(lines[0]) then 0
    else
      var n := Past(lines[1..]);
      assert forall i :: 1 <= i < n + 1 ==> lines[i] == lines[1..][i - 1];
      1 + n
  }

  /**
   * The lines `session.parse` accepts: v=0, then an o and an s line, then
   * lines of the types allowed before the timings, then at least one t line
   * with t and r lines after it, then lines of the types allowed before the
   * media, and from the first m line on anything at all.
   */
  predicate Accepts(lines: seq<string>)
  {
    && |lines| >= 4 && lines[0] == "v=0" && Kind(lines[1]) == "o=" && Kind(lines[2]) == "s="
    && var rest := lines[3..];
       var p := Until(rest, 't');
       && p < |rest|
       && (forall i :: 0 <= i < p ==> Kind(rest[i]) in PreTimingKinds)
       && TimedAccepts(rest[p..])
  }

  /** From the first t line: the t and r lines, then lines of the types allowed before the first m line. */
  predicate TimedAccepts(lines: seq<string>)
  {
    var after := lines[Past(lines)..];
    forall i :: 0 <= i < Until(after, 'm') ==> Kind(after[i]) in PreMediaKinds
  }

  lemma {:induction false} PreTimingRun(d: Description, lines: seq<string>)
    ensures var r := PreTiming(d, lines);
      && (r.ok <==> forall i :: 0 <= i < Until(lines, 't') ==> Kind(lines[i]) in PreTimingKinds)
      && (r.ok ==> r.lines == lines[Until(lines, 't')..])
    decreases |lines|
  {
    if lines != [] && !Starts(lines[0], 't') {
      var next := PreTimingLine(d, lines[0]);
      if next.Some? {
        PreTimingRun(next.value, lines[1..]);
        assert forall i :: 1 <= i < |lines| ==> lines[i] == lines[1..][i - 1];
        assert lines[1..][Until(lines[1..], 't')..] == lines[Until(lines, 't')..];
      }
    }
  }

  lemma {:induction false} PreMediaRun(d: Description, lines: seq<string>)
    ensures var r := PreMedia(d, lines);
      && (r.ok <==> forall i :: 0 <= i < Until(lines, 'm') ==> Kind(lines[i]) in PreMediaKinds)
      && (r.ok ==> r.lines == lines[Until(lines, 'm')..])
    decreases |lines|
  {
    if lines != [] && !Starts(lines[0], 'm') {
      var next := PreMediaLine(d, lines[0]);
      if next.Some? {
        PreMediaRun(next.value, lines[1..]);
        assert forall i :: 1 <= i < |lines| ==> lines[i] == lines[1..][i - 1];
        assert lines[1..][Until(lines[1..], 'm')..] == lines[Until(lines, 'm')..];
      }
    }
  }

  /** The text-gathering loop stops at the first line whose test differs. */
  lemma {:induction false} AbsorbRun(text: string, lines: seq<string>, c: char, starting: bool)
    ensures var rest := Absorb(text, lines, c, starting).1;
      |rest| <= |lines| && rest == lines[|lines| - |rest|..]
      && forall i :: 0 <= i < |lines| - |rest| ==> Starts(lines[i], c) == starting
    decreases |lines|
  {
    if lines != [] && Starts(lines[0], c) == starting {
      AbsorbRun(text + CRLF + lines[0], lines[1..], c, starting);
      assert forall i :: 1 <= i < |lines| ==> lines[i] == lines[1..][i - 1];
    }
  }

  /** Leading t and r lines can be counted in two steps. */
  lemma {:induction false} PastSkip(lines: seq<string>, k: nat)
    requires k <= |lines| && forall i :: 0 <= i < k ==> Timed(lines[i])
    ensures Past(lines) == k + Past(lines[k..])
    decreases k
  {
    if k > 0 {
      assert forall i :: 0 <= i < k - 1 ==> lines[1..][i] == lines[i + 1];
      PastSkip(lines[1..], k - 1);
      assert lines[1..][k - 1..] == lines[k..];
    }
  }

  /** The loop over the t lines reads every leading t and r line, and makes a timing of each t line. */
  lemma {:induction false} TimingsRun(d: Description, lines: seq<string>)
    requires lines == [] || !Starts(lines[0], 'r')
    ensures var r := Timings(d, lines);
      && r.lines == lines[Past(lines)..]
      && |r.d.timing| >= |d.timing| + (if lines != [] && Starts(lines[0], 't') then 1 else 0)
    decreases |lines|
  {
    if lines != [] && Starts(lines[0], 't') {
      var (text, rest) := Absorb(Value(lines[0]), lines[1..], 'r', true);
      TimingBlock(lines);
      TimingsRun(d.(timing := d.timing + [NewTiming(text)]), rest);
      assert lines[|lines| - |rest|..][Past(rest)..] == lines[Past(lines)..];
    }
  }

  /** A t line and the r lines after it are the first of the leading t and r lines. */
  lemma TimingBlock(lines: seq<string>)
    requires lines != [] && Starts(lines[0], 't')
    ensures var rest := Absorb(Value(lines[0]), lines[1..], 'r', true).1;
      && |rest| < |lines| && rest == lines[|lines| - |rest|..]
      && Past(lines) == |lines| - |rest| + Past(rest)
  {
    var rest := Absorb(Value(lines[0]), lines[1..], 'r', true).1;
    AbsorbRun(Value(lines[0]), lines[1..], 'r', true);
    var k := |lines| - |rest|;
    assert rest == lines[k..];
    assert forall i :: 1 <= i < k ==> lines[i] == lines[1..][i - 1];
    PastSkip(lines, k);
  }

  /** From an m line on, the loop over the media descriptions reads every line. */
  lemma {:induction false} MediasRun(d: Description, lines: seq<string>)
    requires lines == [] || Starts(lines[0], 'm')
    ensures Medias(d, lines).lines == []
    decreases |lines|
  {
    if lines != [] {
      var (text, rest) := Absorb(Value(lines[0]), lines[1..], 'm', false);
      MediasRun(d.(media := d.media + [NewMedia(text)]), rest);
    }
  }

  lemma {:induction false} MediasKeepTiming(d: Description, lines: seq<string>)
    ensures Medias(d, lines).d.timing == d.timing
    decreases |lines|
  {
    if lines != [] && Starts(lines[0], 'm') {
      var (text, rest) := Absorb(Value(lines[0]), lines[1..], 'm', false);
      MediasKeepTiming(d.(media := d.media + [NewMedia(text)]), rest);
    }
  }

  lemma {:induction false} PreMediaKeepsTiming(d: Description, lines: seq<string>)
    ensures PreMedia(d, lines).d.timing == d.timing
    decreases |lines|
  {
    if lines != [] && !Starts(lines[0], 'm') {
      var next := PreMediaLine(d, lines[0]);
      if next.Some? {
        PreMediaKeepsTiming(next.value, lines[1..]);
      }
    }
  }

  /** What `parse` does from the first t line on succeeds exactly when the lines before the media have allowed types. */
  lemma AfterPreTimingAccepts(d: Description, lines: seq<string>)
    requires lines != [] && Starts(lines[0], 't')
    ensures AfterPreTiming(d, lines).0 <==> TimedAccepts(lines)
    ensures AfterPreTiming(d, lines).0 ==> |AfterPreTiming(d, lines).1.timing| >= 1
  {
    var t := Timings(d.(timing := []), lines);
    TimingsRun(d.(timing := []), lines);
    var n := Past(lines);
    var after := lines[n..];
    PreMediaRun(t.d, after);
    var q := PreMedia(t.d, after);
    if q.ok {
      var u := Until(after, 'm');
      assert q.lines == after[u..];
      MediasRun(q.d, q.lines);
      MediasKeepTiming(q.d, q.lines);
      PreMediaKeepsTiming(t.d, after);
    }
  }

  /**
   * `session.parse` succeeds exactly on the descriptions `Accepts` describes;
   * a description it accepts has at least one timing, so its check for none
   * never fails.
   */
  lemma SessionAccepts(sdp: string, now: int)
    ensures ParseSession(sdp, now).0 <==> Accepts(Lines(sdp))
    ensures ParseSession(sdp, now).0 ==> |ParseSession(sdp, now).1.timing| >= 1
  {
    var lines := Lines(sdp);
    if |lines| >= 4 && lines[0] == "v=0" && Kind(lines[1]) == "o=" && Kind(lines[2]) == "s=" {
      var d := DefaultDescription(now).(origin := NewOrigin(Value(lines[1]), now));
      var rest := lines[3..];
      var d1 := d.(sessionName := Value(lines[2]));
      PreTimingRun(d1, rest);
      var p := PreTiming(d1, rest);
      var n := Until(rest, 't');
      if p.ok && n < |rest| {
        var after := rest[n..];
        assert p.lines == after;
        AfterPreTimingAccepts(p.d, after);
      }
    }
  }
}
