/**
 * A whole session description: written out by `session.toString()` and read
 * back by `session.parse`, a well-formed description is the same
 * description.
 */
module SdpSessionLaws {
  import opened Wrappers
  import opened JsString
  import opened Util
  import opened Assoc
  import opened Sdp
  import opened SdpLaws

  // ---------------------------------------------------------------------
  // the text as lines

  /** Each line followed by CRLF. */
  function Terminated(lines: seq<string>): string
  {
    if lines == [] then "" else Terminated(lines[..|lines| - 1]) + (lines[|lines| - 1] + CRLF)
  }

  lemma {:induction false} TerminatedAppend(a: seq<string>, b: seq<string>)
    ensures Terminated(a + b) == Terminated(a) + Terminated(b)
    decreases |b|
  {
    if b == [] {
      assert a + b == a;
    } else {
      var init := b[..|b| - 1];
      TerminatedAppend(a, init);
      assert (a + b)[..|a + b| - 1] == a + init;
    }
  }

  lemma {:induction false} TerminatedJoin(lines: seq<string>)
    requires |lines| >= 1
    ensures Terminated(lines) == Join(lines + [""], CRLF)
    decreases |lines|
  {
    JoinSnoc(lines, "", CRLF);
    if |lines| > 1 {
      var init, x := lines[..|lines| - 1], lines[|lines| - 1];
      TerminatedJoin(init);
      JoinSnoc(init, "", CRLF);
      JoinSnoc(init, x, CRLF);
      assert init + [x] == lines;
    }
  }

  /** A type written in front of joined lines goes in front of the first line. */
  lemma Prefixed(kind: string, lines: seq<string>)
    requires |lines| >= 1
    ensures kind + Join(lines, CRLF) == Join([kind + lines[0]] + lines[1..], CRLF)
  {
    if |lines| > 1 {
      var first, rest := lines[0], lines[1..];
      JoinCons(first, CRLF, rest);
      assert [first] + rest == lines;
      JoinCons(kind + first, CRLF, rest);
      Regroup4(kind, first, CRLF, Join(rest, CRLF));
    } else {
      assert lines[1..] == [];
    }
  }

  lemma Regroup3<T>(a: seq<T>, b: seq<T>, c: seq<T>)
    ensures a + (b + c) == a + b + c
  {
  }

  lemma Regroup5<T>(a: seq<T>, b: seq<T>, c: seq<T>, d: seq<T>, e: seq<T>)
    ensures a + (b + c + d + e) == a + b + c + d + e
  {
  }

  lemma Regroup4<T>(a: seq<T>, b: seq<T>, c: seq<T>, d: seq<T>)
    ensures a + (b + c + d) == a + b + c + d
  {
  }

  /** A block that `toString` writes as one piece and that reads as several lines. */
  lemma Block(kind: string, lines: seq<string>)
    requires |lines| >= 1
    ensures kind + Join(lines, CRLF) + CRLF == Terminated([kind + lines[0]] + lines[1..])
  {
    Prefixed(kind, lines);
    TerminatedJoin([kind + lines[0]] + lines[1..]);
    JoinSnoc([kind + lines[0]] + lines[1..], "", CRLF);
  }

  function TimingHead(t: Timing): string
  {
    TimeText(t.start) + " " + TimeText(t.stop)
  }

  /** The lines of a timing: its t line and its r lines. */
  function TimingBlock(t: Timing): seq<string>
  {
    ["t=" + TimingHead(t)] + t.repeat
  }

  function TimingsLines(ts: seq<Timing>): seq<string>
  {
    if ts == [] then [] else TimingsLines(ts[..|ts| - 1]) + TimingBlock(ts[|ts| - 1])
  }

  /** The lines of a media description: its m line and the lines after it. */
  function MediaBlock(m: Media): seq<string>
  {
    ["m=" + MediaHeadText(m)] + MediaSubLines(m)
  }

  function MediasLines(ms: seq<Media>): seq<string>
  {
    if ms == [] then [] else MediasLines(ms[..|ms| - 1]) + MediaBlock(ms[|ms| - 1])
  }

  lemma TimingBlockText(t: Timing)
    ensures "t=" + TimingText(t) + CRLF == Terminated(TimingBlock(t))
  {
    EachJoins(TimingHead(t), t.repeat);
    Block("t=", [TimingHead(t)] + t.repeat);
    assert ([TimingHead(t)] + t.repeat)[1..] == t.repeat;
  }

  lemma MediaBlockText(m: Media)
    ensures "m=" + MediaText(m) + CRLF == Terminated(MediaBlock(m))
  {
    MediaTextLines(m);
    Block("m=", [MediaHeadText(m)] + MediaSubLines(m));
    assert ([MediaHeadText(m)] + MediaSubLines(m))[1..] == MediaSubLines(m);
  }

  lemma {:induction false} TimingsTextLines(lines: seq<string>, ts: seq<Timing>)
    ensures TimingsText(Terminated(lines), ts) == Terminated(lines + TimingsLines(ts))
    decreases |ts|
  {
    if ts == [] {
      assert lines + [] == lines;
    } else {
      var init, t := ts[..|ts| - 1], ts[|ts| - 1];
      TimingsTextLines(lines, init);
      TimingBlockText(t);
      TerminatedAppend(lines + TimingsLines(init), TimingBlock(t));
      assert TimingsLines(ts) == TimingsLines(init) + TimingBlock(t);
      Regroup3(lines, TimingsLines(init), TimingBlock(t));
    }
  }

  lemma {:induction false} MediasTextLines(lines: seq<string>, ms: seq<Media>)
    ensures MediasText(Terminated(lines), ms) == Terminated(lines + MediasLines(ms))
    decreases |ms|
  {
    if ms == [] {
      assert lines + [] == lines;
    } else {
      var init, m := ms[..|ms| - 1], ms[|ms| - 1];
      MediasTextLines(lines, init);
      MediaBlockText(m);
      TerminatedAppend(lines + MediasLines(init), MediaBlock(m));
      assert MediasLines(ms) == MediasLines(init) + MediaBlock(m);
      Regroup3(lines, MediasLines(init), MediaBlock(m));
    }
  }

  lemma {:induction false} EachTerminated(lines: seq<string>, kind: string, xs: seq<string>)
    ensures Each(Terminated(lines), xs, kind, CRLF) == Terminated(lines + LinesOf(kind, xs))
    decreases |xs|
  {
    if xs == [] {
      assert lines + [] == lines;
    } else {
      var init := xs[..|xs| - 1];
      EachTerminated(lines, kind, init);
      assert lines + LinesOf(kind, xs) == (lines + LinesOf(kind, init)) + [kind + xs[|xs| - 1]];
    }
  }

  lemma OptionalTerminated(lines: seq<string>, kind: string, f: Option<string>)
    ensures Optional(Terminated(lines), kind, f, CRLF) == Terminated(lines + OptionalLines(kind, f))
  {
    assert lines + [] == lines;
  }

  /** Attributes whose values are all truthy: each line ends in CRLF. */
  predicate Valued(attrs: Attributes)
  {
    forall i :: 0 <= i < |attrs| ==> Truthy(attrs[i].1)
  }

  lemma {:induction false} AttributesTerminated(lines: seq<string>, attrs: Attributes)
    requires Valued(attrs)
    ensures AttributesText(Terminated(lines), attrs, "", CRLF) == Terminated(lines + AttrLines(attrs))
    decreases |attrs|
  {
    if attrs == [] {
      assert lines + [] == lines;
    } else {
      var init, a := attrs[..|attrs| - 1], attrs[|attrs| - 1];
      AttributesTerminated(lines, init);
      var s := Terminated(lines + AttrLines(init));
      assert AttributeText(s, a, "", CRLF) == s + (AttrLine(a) + CRLF);
      assert lines + AttrLines(attrs) == (lines + AttrLines(init)) + [AttrLine(a)];
    }
  }

  function HeadLines(d: Description): seq<string>
  {
    ["v=" + IntToString(d.version), "o=" + OriginText(d.origin), "s=" + d.sessionName]
  }

  /** The lines before the bandwidths: v, o, s, then i, u, e, p when set, then c. */
  function PreambleLines(d: Description): seq<string>
  {
    HeadLines(d) + OptionalLines("i=", d.sessionInfo) + OptionalLines("u=", d.uri)
    + OptionalLines("e=", d.email) + OptionalLines("p=", d.phone) + ["c=" + ConnectionText(d.connection)]
  }

  /** The lines from the z line on. */
  function TailLines(d: Description): seq<string>
  {
    OptionalLines("z=", d.timezone) + OptionalLines("k=", d.key) + AttrLines(d.attributes) + MediasLines(d.media)
  }

  /** The lines of a session description, in the order `toString` writes them. */
  function SessionLines(d: Description): seq<string>
  {
    PreambleLines(d) + LinesOf("b=", d.bandwidth) + TimingsLines(d.timing) + TailLines(d)
  }

  lemma PreambleTerminated(d: Description)
    ensures Preamble(d) == Terminated(PreambleLines(d))
  {
    var h := HeadLines(d);
    ThreeLines("v=" + IntToString(d.version), "o=" + OriginText(d.origin), "s=" + d.sessionName);
    var l1 := h + OptionalLines("i=", d.sessionInfo);
    var l2 := l1 + OptionalLines("u=", d.uri);
    var l3 := l2 + OptionalLines("e=", d.email);
    var l4 := l3 + OptionalLines("p=", d.phone);
    OptionalTerminated(h, "i=", d.sessionInfo);
    OptionalTerminated(l1, "u=", d.uri);
    OptionalTerminated(l2, "e=", d.email);
    OptionalTerminated(l3, "p=", d.phone);
    assert (l4 + ["c=" + ConnectionText(d.connection)])[..|l4|] == l4;
  }

  lemma ThreeLines(a: string, b: string, c: string)
    ensures Terminated([a, b, c]) == a + CRLF + (b + CRLF) + (c + CRLF)
  {
    assert [a, b, c][..2] == [a, b];
    assert [a, b][..1] == [a];
    assert [a][..0] == [];
    assert Terminated([a]) == a + CRLF;
    assert Terminated([a, b]) == a + CRLF + (b + CRLF);
  }

  /** With every attribute valued, the text of a session is its lines, each followed by CRLF. */
  lemma SessionTextLines(d: Description)
    requires Valued(d.attributes)
    ensures SessionText(d) == Terminated(SessionLines(d))
  {
    var p := PreambleLines(d);
    PreambleTerminated(d);
    var b := p + LinesOf("b=", d.bandwidth);
    EachTerminated(p, "b=", d.bandwidth);
    var t := b + TimingsLines(d.timing);
    TimingsTextLines(b, d.timing);
    var z := t + OptionalLines("z=", d.timezone);
    OptionalTerminated(t, "z=", d.timezone);
    var k := z + OptionalLines("k=", d.key);
    OptionalTerminated(z, "k=", d.key);
    var a := k + AttrLines(d.attributes);
    AttributesTerminated(k, d.attributes);
    MediasTextLines(a, d.media);
    Regroup5(t, OptionalLines("z=", d.timezone), OptionalLines("k=", d.key), AttrLines(d.attributes), MediasLines(d.media));
  }

  // ---------------------------------------------------------------------
  // reading the lines back

  /** Lines without CR, each followed by CRLF, are split back into the same lines. */
  lemma LinesOfTerminated(lines: seq<string>)
    requires lines != [] && Free(lines, '\r')
    ensures Lines(Terminated(lines)) == lines
  {
    TerminatedJoin(lines);
    FreeConcat(lines, [""], '\r');
    SplitJoinCrlf(lines + [""]);
    assert (lines + [""])[..|lines|] == lines;
  }

  /** A line whose type is two characters starts with the type's first character. */
  lemma KindStarts(line: string, c: char)
    requires |Kind(line)| == 2
    ensures Starts(line, c) <==> Kind(line)[0] == c
  {
  }

  lemma JoinMerge(a: string, b: string, rest: seq<string>)
    ensures Join([a + CRLF + b] + rest, CRLF) == Join([a, b] + rest, CRLF)
  {
    if rest != [] {
      JoinCons(a + CRLF + b, CRLF, rest);
      JoinCons(b, CRLF, rest);
      JoinCons(a, CRLF, [b] + rest);
      assert [a] + ([b] + rest) == [a, b] + rest;
    }
  }

  /** The text-gathering loop takes the lines that pass its test, up to the first that does not. */
  lemma {:induction false} AbsorbAll(text: string, xs: seq<string>, ys: seq<string>, c: char, starting: bool)
    requires forall i :: 0 <= i < |xs| ==> Starts(xs[i], c) == starting
    requires ys == [] || Starts(ys[0], c) != starting
    ensures Absorb(text, xs + ys, c, starting) == (Join([text] + xs, CRLF), ys)
    decreases |xs|
  {
    if xs == [] {
      assert xs + ys == ys;
    } else {
      assert (xs + ys)[0] == xs[0] && (xs + ys)[1..] == xs[1..] + ys;
      assert forall i :: 0 <= i < |xs[1..]| ==> xs[1..][i] == xs[i + 1];
      AbsorbAll(text + CRLF + xs[0], xs[1..], ys, c, starting);
      JoinMerge(text, xs[0], xs[1..]);
      assert [text, xs[0]] + xs[1..] == [text] + xs;
    }
  }

  /** A timing that reads back from its lines. */
  predicate WellFormedTiming(t: Timing)
  {
    RoundTrips(t) && forall i :: 0 <= i < |t.repeat| ==> Starts(t.repeat[i], 'r')
  }

  lemma OneTiming(d: Description, t: Timing, ys: seq<string>)
    requires WellFormedTiming(t) && (ys == [] || !Starts(ys[0], 'r'))
    ensures Timings(d, TimingBlock(t) + ys) == Timings(d.(timing := d.timing + [t]), ys)
  {
    TimingBlockRead(t, ys);
    TimingRoundTrip(t);
  }

  /** The t line of a block and its r lines are gathered back into the text of the timing. */
  lemma TimingBlockRead(t: Timing, ys: seq<string>)
    requires WellFormedTiming(t) && (ys == [] || !Starts(ys[0], 'r'))
    ensures var lines := TimingBlock(t) + ys;
      lines != [] && Starts(lines[0], 't') && Absorb(Value(lines[0]), lines[1..], 'r', true) == (TimingText(t), ys)
  {
    var h := TimingHead(t);
    var lines := TimingBlock(t) + ys;
    LineParts("t=", h);
    assert lines[0] == "t=" + h && lines[1..] == t.repeat + ys;
    AbsorbAll(h, t.repeat, ys, 'r', true);
    EachJoins(h, t.repeat);
  }

  lemma {:induction false} TimingsBlocks(d: Description, ts: seq<Timing>, ys: seq<string>)
    requires forall i :: 0 <= i < |ts| ==> WellFormedTiming(ts[i])
    requires ys == [] || !Starts(ys[0], 'r')
    ensures Timings(d, TimingsLines(ts) + ys) == Timings(d.(timing := d.timing + ts), ys)
    decreases |ts|
  {
    if ts == [] {
      assert [] + ys == ys && d.timing + ts == d.timing;
    } else {
      var init, t := ts[..|ts| - 1], ts[|ts| - 1];
      assert ts == init + [t];
      var block := TimingBlock(t) + ys;
      LineParts("t=", TimingHead(t));
      TimingsBlocks(d, init, block);
      assert TimingsLines(ts) == TimingsLines(init) + TimingBlock(t);
      Regroup3(TimingsLines(init), TimingBlock(t), ys);
      OneTiming(d.(timing := d.timing + init), t, ys);
      Regroup3(d.timing, init, [t]);
    }
  }

  lemma OneMedia(d: Description, m: Media, ys: seq<string>)
    requires WellFormedMedia(m) && (ys == [] || Starts(ys[0], 'm'))
    ensures Medias(d, MediaBlock(m) + ys) == Medias(d.(media := d.media + [m]), ys)
  {
    MediaBlockRead(m, ys);
    MediaRoundTrip(m);
  }

  /** The m line of a block and the lines after it are gathered back into the text of the media description. */
  lemma MediaBlockRead(m: Media, ys: seq<string>)
    requires WellFormedMedia(m) && (ys == [] || Starts(ys[0], 'm'))
    ensures var lines := MediaBlock(m) + ys;
      lines != [] && Starts(lines[0], 'm') && Absorb(Value(lines[0]), lines[1..], 'm', false) == (MediaText(m), ys)
  {
    var h, sub := MediaHeadText(m), MediaSubLines(m);
    var lines := MediaBlock(m) + ys;
    LineParts("m=", h);
    assert lines[0] == "m=" + h && lines[1..] == sub + ys;
    SubLinesNotMedia(m);
    AbsorbAll(h, sub, ys, 'm', false);
    MediaTextLines(m);
  }

  /** No line after an m line starts with 'm'. */
  lemma SubLinesNotMedia(m: Media)
    requires WellFormedMedia(m)
    ensures forall i :: 0 <= i < |MediaSubLines(m)| ==> !Starts(MediaSubLines(m)[i], 'm')
  {
    var head := DefaultMedia.(media := m.media, port := m.port, proto := m.proto, format := m.format);
    SubLinesRead(head, m);
    MediaLinesAccept(head, MediaSubLines(m));
    forall i | 0 <= i < |MediaSubLines(m)|
      ensures !Starts(MediaSubLines(m)[i], 'm')
    {
      KindStarts(MediaSubLines(m)[i], 'm');
    }
  }

  lemma {:induction false} MediasBlocks(d: Description, ms: seq<Media>, ys: seq<string>)
    requires forall i :: 0 <= i < |ms| ==> WellFormedMedia(ms[i])
    requires ys == [] || Starts(ys[0], 'm')
    ensures Medias(d, MediasLines(ms) + ys) == Medias(d.(media := d.media + ms), ys)
    decreases |ms|
  {
    if ms == [] {
      assert [] + ys == ys && d.media + ms == d.media;
    } else {
      var init, m := ms[..|ms| - 1], ms[|ms| - 1];
      assert ms == init + [m];
      var block := MediaBlock(m) + ys;
      LineParts("m=", MediaHeadText(m));
      MediasBlocks(d, init, block);
      assert MediasLines(ms) == MediasLines(init) + MediaBlock(m);
      Regroup3(MediasLines(init), MediaBlock(m), ys);
      OneMedia(d.(media := d.media + init), m, ys);
      Regroup3(d.media, init, [m]);
    }
  }

  lemma PreTimingOne(d: Description, line: string, ys: seq<string>)
    requires Kind(line) in PreTimingKinds
    ensures PreTiming(d, [line] + ys) == PreTiming(PreTimingLine(d, line).value, ys)
  {
    KindStarts(line, 't');
    assert ([line] + ys)[0] == line && ([line] + ys)[1..] == ys;
  }

  lemma PreTimingOptional(d: Description, kind: string, f: Option<string>, ys: seq<string>)
    requires kind in PreTimingKinds
    ensures PreTiming(d, OptionalLines(kind, f) + ys)
      == if Truthy(f) then PreTiming(PreTimingLine(d, kind + f.value).value, ys) else PreTiming(d, ys)
  {
    if Truthy(f) {
      LineParts(kind, f.value);
      PreTimingOne(d, kind + f.value, ys);
    } else {
      assert [] + ys == ys;
    }
  }

  lemma {:induction false} PreTimingBandwidth(d: Description, bs: seq<string>, ys: seq<string>)
    ensures PreTiming(d, LinesOf("b=", bs) + ys) == PreTiming(d.(bandwidth := d.bandwidth + bs), ys)
    decreases |bs|
  {
    if bs == [] {
      assert [] + ys == ys && d.bandwidth + bs == d.bandwidth;
    } else {
      var init, b := bs[..|bs| - 1], bs[|bs| - 1];
      assert bs == init + [b];
      PreTimingBandwidth(d, init, ["b=" + b] + ys);
      assert LinesOf("b=", bs) == LinesOf("b=", init) + ["b=" + b];
      Regroup3(LinesOf("b=", init), ["b=" + b], ys);
      LineParts("b=", b);
      PreTimingOne(d.(bandwidth := d.bandwidth + init), "b=" + b, ys);
      Regroup3(d.bandwidth, init, [b]);
    }
  }

  lemma PreMediaOne(d: Description, line: string, ys: seq<string>)
    requires Kind(line) in PreMediaKinds
    ensures PreMedia(d, [line] + ys) == PreMedia(PreMediaLine(d, line).value, ys)
  {
    KindStarts(line, 'm');
    assert ([line] + ys)[0] == line && ([line] + ys)[1..] == ys;
  }

  lemma PreMediaOptional(d: Description, kind: string, f: Option<string>, ys: seq<string>)
    requires kind in PreMediaKinds
    ensures PreMedia(d, OptionalLines(kind, f) + ys)
      == if Truthy(f) then PreMedia(PreMediaLine(d, kind + f.value).value, ys) else PreMedia(d, ys)
  {
    if Truthy(f) {
      LineParts(kind, f.value);
      PreMediaOne(d, kind + f.value, ys);
    } else {
      assert [] + ys == ys;
    }
  }

  lemma {:induction false} PreMediaAttributes(d: Description, attrs: Attributes, ys: seq<string>)
    requires d.attributes == [] && GoodAttributes(attrs)
    ensures PreMedia(d, AttrLines(attrs) + ys) == PreMedia(d.(attributes := attrs), ys)
    decreases |attrs|
  {
    if attrs == [] {
      assert [] + ys == ys;
    } else {
      var init, a := attrs[..|attrs| - 1], attrs[|attrs| - 1];
      assert attrs == init + [a];
      assert GoodAttributes(init);
      PreMediaAttributes(d, init, [AttrLine(a)] + ys);
      assert AttrLines(attrs) == AttrLines(init) + [AttrLine(a)];
      Regroup3(AttrLines(init), [AttrLine(a)], ys);
      assert forall i :: 0 <= i < |init| ==> init[i].0 != a.0;
      AttrLineAdds(init, a);
      PreMediaOne(d.(attributes := init), AttrLine(a), ys);
    }
  }

  // ---------------------------------------------------------------------
  // the round trip

  predicate WireOrigin(o: Origin)
  {
    WireWord(o.username) && WireWord(o.id) && WireWord(o.version)
    && WireWord(o.netType) && WireWord(o.addrType) && WireWord(o.address)
  }

  /**
   * A description that `toString` writes so that `parse` reads it back:
   * version 0, single-word origin and connection fields, no CR inside a
   * line, optional properties unset or not empty, at least one timing whose
   * repeats are r lines, attribute names without ':' each given a value
   * that is not empty, and media descriptions that read back.
   */
  predicate WellFormedDescription(d: Description)
  {
    && d.version == 0
    && WireOrigin(d.origin)
    && '\r' !in d.sessionName
    && Writable(d.sessionInfo) && Writable(d.uri) && Writable(d.email) && Writable(d.phone)
    && WireConnection(d.connection)
    && Free(d.bandwidth, '\r')
    && |d.timing| >= 1 && (forall i :: 0 <= i < |d.timing| ==> WellFormedTiming(d.timing[i]))
    && Writable(d.timezone) && Writable(d.key)
    && GoodAttributes(d.attributes) && Valued(d.attributes)
    && forall i :: 0 <= i < |d.media| ==> WellFormedMedia(d.media[i])
  }

  lemma {:induction false} TimingsLinesStart(ts: seq<Timing>)
    requires ts != []
    ensures TimingsLines(ts) != [] && Starts(TimingsLines(ts)[0], 't')
    decreases |ts|
  {
    var init := ts[..|ts| - 1];
    if init != [] {
      TimingsLinesStart(init);
    } else {
      LineParts("t=", TimingHead(ts[|ts| - 1]));
    }
  }

  lemma {:induction false} MediasLinesStart(ms: seq<Media>)
    requires ms != []
    ensures MediasLines(ms) != [] && Starts(MediasLines(ms)[0], 'm')
    decreases |ms|
  {
    var init := ms[..|ms| - 1];
    if init != [] {
      MediasLinesStart(init);
    } else {
      LineParts("m=", MediaHeadText(ms[|ms| - 1]));
    }
  }

  lemma {:induction false} AttrLinesKind(attrs: Attributes)
    ensures forall i :: 0 <= i < |AttrLines(attrs)| ==> Kind(AttrLines(attrs)[i]) == "a="
    decreases |attrs|
  {
    if attrs != [] {
      var a := attrs[|attrs| - 1];
      AttrLinesKind(attrs[..|attrs| - 1]);
      assert AttrLine(a) == "a=" + (a.0 + (if Truthy(a.1) then ":" + a.1.value else ""));
      LineParts("a=", a.0 + (if Truthy(a.1) then ":" + a.1.value else ""));
    }
  }

  /** The lines from the z line on start with neither 't' nor 'r'. */
  lemma TailStart(d: Description)
    ensures var tail := TailLines(d); tail == [] || (!Starts(tail[0], 't') && !Starts(tail[0], 'r'))
  {
    var tail := TailLines(d);
    if tail != [] {
      if Truthy(d.timezone) {
        LineParts("z=", d.timezone.value);
        KindStarts(tail[0], 't');
        KindStarts(tail[0], 'r');
      } else if Truthy(d.key) {
        LineParts("k=", d.key.value);
        KindStarts(tail[0], 't');
        KindStarts(tail[0], 'r');
      } else if d.attributes != [] {
        AttrLinesKind(d.attributes);
        KindStarts(tail[0], 't');
        KindStarts(tail[0], 'r');
      } else {
        MediasLinesStart(d.media);
      }
    }
  }

  lemma {:induction false} TimingsLinesFree(ts: seq<Timing>)
    requires forall i :: 0 <= i < |ts| ==> WellFormedTiming(ts[i])
    ensures Free(TimingsLines(ts), '\r')
    decreases |ts|
  {
    if ts != [] {
      var t := ts[|ts| - 1];
      TimingsLinesFree(ts[..|ts| - 1]);
      TimeTextWord(t.start);
      TimeTextWord(t.stop);
      FreeConcat(["t=" + TimingHead(t)], t.repeat, '\r');
      FreeConcat(TimingsLines(ts[..|ts| - 1]), TimingBlock(t), '\r');
    }
  }

  lemma {:induction false} MediasLinesFree(ms: seq<Media>)
    requires forall i :: 0 <= i < |ms| ==> WellFormedMedia(ms[i])
    ensures Free(MediasLines(ms), '\r')
    decreases |ms|
  {
    if ms != [] {
      var m := ms[|ms| - 1];
      MediasLinesFree(ms[..|ms| - 1]);
      SubLinesFree(m);
      FreeConcat(["m=" + MediaHeadText(m)], MediaSubLines(m), '\r');
      FreeConcat(MediasLines(ms[..|ms| - 1]), MediaBlock(m), '\r');
    }
  }

  lemma SessionLinesFree(d: Description)
    requires WellFormedDescription(d)
    ensures Free(SessionLines(d), '\r')
  {
    PreambleFree(d);
    LinesOfFree("b=", d.bandwidth);
    TimingsLinesFree(d.timing);
    TailFree(d);
    FreeConcat(PreambleLines(d), LinesOf("b=", d.bandwidth), '\r');
    FreeConcat(PreambleLines(d) + LinesOf("b=", d.bandwidth), TimingsLines(d.timing), '\r');
    FreeConcat(PreambleLines(d) + LinesOf("b=", d.bandwidth) + TimingsLines(d.timing), TailLines(d), '\r');
  }

  lemma PreambleFree(d: Description)
    requires WellFormedDescription(d)
    ensures Free(PreambleLines(d), '\r')
  {
    IntToStringShape(d.version);
    var h := HeadLines(d);
    var i, u, e, p := OptionalLines("i=", d.sessionInfo), OptionalLines("u=", d.uri),
      OptionalLines("e=", d.email), OptionalLines("p=", d.phone);
    var c := ["c=" + ConnectionText(d.connection)];
    FreeConcat(h, i, '\r');
    FreeConcat(h + i, u, '\r');
    FreeConcat(h + i + u, e, '\r');
    FreeConcat(h + i + u + e, p, '\r');
    FreeConcat(h + i + u + e + p, c, '\r');
  }

  lemma TailFree(d: Description)
    requires WellFormedDescription(d)
    ensures Free(TailLines(d), '\r')
  {
    var z, k := OptionalLines("z=", d.timezone), OptionalLines("k=", d.key);
    AttrLinesFree(d.attributes);
    MediasLinesFree(d.media);
    FreeConcat(z, k, '\r');
    FreeConcat(z + k, AttrLines(d.attributes), '\r');
    FreeConcat(z + k + AttrLines(d.attributes), MediasLines(d.media), '\r');
  }

  /** The fields after the s line is read: those of a reset session, with the origin and name of `d`. */
  function Start(d: Description): Description
  {
    d.(sessionInfo := None, uri := None, email := None, phone := None, connection := DefaultConnection,
       bandwidth := [], timing := [DefaultTiming], timezone := None, key := None, attributes := [], media := [])
  }

  /** The fields when the first t line is reached. */
  function Mid(d: Description): Description
  {
    d.(timing := [DefaultTiming], timezone := None, key := None, attributes := [], media := [])
  }

  /** The lines after the s line, grouped as the loops read them. */
  function PreRest(d: Description): seq<string>
  {
    OptionalLines("i=", d.sessionInfo) + (OptionalLines("u=", d.uri) + (OptionalLines("e=", d.email)
    + (OptionalLines("p=", d.phone) + (["c=" + ConnectionText(d.connection)] + (LinesOf("b=", d.bandwidth)
    + (TimingsLines(d.timing) + TailLines(d)))))))
  }

  lemma InfoStep(x: Description, f: Option<string>, ys: seq<string>)
    requires x.sessionInfo.None? && Writable(f)
    ensures PreTiming(x, OptionalLines("i=", f) + ys) == PreTiming(x.(sessionInfo := f), ys)
  {
    PreTimingOptional(x, "i=", f, ys);
    if Truthy(f) { LineParts("i=", f.value); }
  }

  lemma UriStep(x: Description, f: Option<string>, ys: seq<string>)
    requires x.uri.None? && Writable(f)
    ensures PreTiming(x, OptionalLines("u=", f) + ys) == PreTiming(x.(uri := f), ys)
  {
    PreTimingOptional(x, "u=", f, ys);
    if Truthy(f) { LineParts("u=", f.value); }
  }

  lemma EmailStep(x: Description, f: Option<string>, ys: seq<string>)
    requires x.email.None? && Writable(f)
    ensures PreTiming(x, OptionalLines("e=", f) + ys) == PreTiming(x.(email := f), ys)
  {
    PreTimingOptional(x, "e=", f, ys);
    if Truthy(f) { LineParts("e=", f.value); }
  }

  lemma PhoneStep(x: Description, f: Option<string>, ys: seq<string>)
    requires x.phone.None? && Writable(f)
    ensures PreTiming(x, OptionalLines("p=", f) + ys) == PreTiming(x.(phone := f), ys)
  {
    PreTimingOptional(x, "p=", f, ys);
    if Truthy(f) { LineParts("p=", f.value); }
  }

  lemma ConnectionStep(x: Description, c: Connection, ys: seq<string>)
    requires WireConnection(c)
    ensures PreTiming(x, ["c=" + ConnectionText(c)] + ys) == PreTiming(x.(connection := c), ys)
  {
    LineParts("c=", ConnectionText(c));
    PreTimingOne(x, "c=" + ConnectionText(c), ys);
    ConnectionRoundTrip(c);
  }

  lemma TimezoneStep(x: Description, f: Option<string>, ys: seq<string>)
    requires x.timezone.None? && Writable(f)
    ensures PreMedia(x, OptionalLines("z=", f) + ys) == PreMedia(x.(timezone := f), ys)
  {
    PreMediaOptional(x, "z=", f, ys);
    if Truthy(f) { LineParts("z=", f.value); }
  }

  lemma KeyStep(x: Description, f: Option<string>, ys: seq<string>)
    requires x.key.None? && Writable(f)
    ensures PreMedia(x, OptionalLines("k=", f) + ys) == PreMedia(x.(key := f), ys)
  {
    PreMediaOptional(x, "k=", f, ys);
    if Truthy(f) { LineParts("k=", f.value); }
  }

  lemma PreTimingPhase(d: Description)
    requires WellFormedDescription(d)
    ensures PreTiming(Start(d), PreRest(d)) == Parsing(true, TimingsLines(d.timing) + TailLines(d), Mid(d))
  {
    var r6 := TimingsLines(d.timing) + TailLines(d);
    var r5 := LinesOf("b=", d.bandwidth) + r6;
    var r4 := ["c=" + ConnectionText(d.connection)] + r5;
    var r3 := OptionalLines("p=", d.phone) + r4;
    var r2 := OptionalLines("e=", d.email) + r3;
    var r1 := OptionalLines("u=", d.uri) + r2;
    var d0 := Start(d);
    var d1 := d0.(sessionInfo := d.sessionInfo);
    var d2 := d1.(uri := d.uri);
    var d3 := d2.(email := d.email);
    var d4 := d3.(phone := d.phone);
    var d5 := d4.(connection := d.connection);
    InfoStep(d0, d.sessionInfo, r1);
    UriStep(d1, d.uri, r2);
    EmailStep(d2, d.email, r3);
    PhoneStep(d3, d.phone, r4);
    ConnectionStep(d4, d.connection, r5);
    PreTimingBandwidth(d5, d.bandwidth, r6);
    assert d5.(bandwidth := d5.bandwidth + d.bandwidth) == Mid(d) by {
      assert [] + d.bandwidth == d.bandwidth;
    }
    TimingsLinesStart(d.timing);
    assert PreTiming(Mid(d), r6) == Parsing(true, r6, Mid(d));
  }

  lemma AfterPhase(d: Description)
    requires WellFormedDescription(d)
    ensures AfterPreTiming(Mid(d), TimingsLines(d.timing) + TailLines(d)) == (true, d)
  {
    var tail := TailLines(d);
    var m1 := Mid(d).(timing := d.timing);
    TimingsPhase(d);
    var ms := MediasLines(d.media);
    var ra := AttrLines(d.attributes) + ms;
    var rk := OptionalLines("k=", d.key) + ra;
    Nest4(OptionalLines("z=", d.timezone), OptionalLines("k=", d.key), AttrLines(d.attributes), ms);
    assert tail == OptionalLines("z=", d.timezone) + rk;
    TimezoneStep(m1, d.timezone, rk);
    var m2 := m1.(timezone := d.timezone);
    KeyStep(m2, d.key, ra);
    var m3 := m2.(key := d.key);
    PreMediaAttributes(m3, d.attributes, ms);
    var m4 := m3.(attributes := d.attributes);
    MediasPhase(m4, d.media);
    assert m4.(media := d.media) == d;
    var t := Timings(Mid(d).(timing := []), TimingsLines(d.timing) + tail);
    assert t == Parsing(true, tail, m1);
    var q := PreMedia(t.d, t.lines);
    assert q == Parsing(true, ms, m4);
  }

  lemma TimingsPhase(d: Description)
    requires WellFormedDescription(d)
    ensures Timings(Mid(d).(timing := []), TimingsLines(d.timing) + TailLines(d))
      == Parsing(true, TailLines(d), Mid(d).(timing := d.timing))
  {
    TailStart(d);
    TimingsBlocks(Mid(d).(timing := []), d.timing, TailLines(d));
    assert [] + d.timing == d.timing;
  }

  lemma MediasPhase(x: Description, ms: seq<Media>)
    requires x.media == [] && forall i :: 0 <= i < |ms| ==> WellFormedMedia(ms[i])
    ensures PreMedia(x, MediasLines(ms)) == Parsing(true, MediasLines(ms), x)
    ensures Medias(x, MediasLines(ms)).d == x.(media := ms)
  {
    if ms != [] {
      MediasLinesStart(ms);
    }
    MediasBlocks(x, ms, []);
    assert MediasLines(ms) + [] == MediasLines(ms) && [] + ms == ms;
  }

  lemma Nest4<T>(a: seq<T>, b: seq<T>, c: seq<T>, d: seq<T>)
    ensures a + b + c + d == a + (b + (c + d))
  {
  }

  lemma Regroup9<T>(h: seq<T>, a: seq<T>, b: seq<T>, c: seq<T>, d: seq<T>, e: seq<T>, f: seq<T>, g: seq<T>, k: seq<T>)
    ensures (h + a + b + c + d + e + f + g + k)[|h|..] == a + (b + (c + (d + (e + (f + (g + k))))))
  {
  }

  /**
   * A well-formed session description written out by `toString` and read
   * back by `parse` is accepted and gives the same description, whatever
   * the clock reads.
   */
  lemma SessionRoundTrip(d: Description, now: int)
    requires WellFormedDescription(d)
    ensures ParseSession(SessionText(d), now) == (true, d)
  {
    var lines := SessionLines(d);
    LinesRead(d);
    assert Lines(SessionText(d)) == lines;
    HeadRead(d);
    OriginRoundTrip(d.origin, now);
    var start := DefaultDescription(now).(origin := NewOrigin(Value(lines[1]), now)).(sessionName := Value(lines[2]));
    assert start == Start(d);
    PreTimingPhase(d);
    TimingsLinesStart(d.timing);
    var p := PreTiming(start, lines[3..]);
    assert p == Parsing(true, TimingsLines(d.timing) + TailLines(d), Mid(d));
    AfterPhase(d);
  }

  lemma LinesRead(d: Description)
    requires WellFormedDescription(d)
    ensures Lines(SessionText(d)) == SessionLines(d)
  {
    SessionTextLines(d);
    SessionLinesFree(d);
    LinesOfTerminated(SessionLines(d));
  }

  /** The v, o and s lines, and the lines after them. */
  lemma HeadRead(d: Description)
    requires d.version == 0
    ensures var lines := SessionLines(d);
      && |lines| >= 4 && lines[0] == "v=0"
      && Kind(lines[1]) == "o=" && Value(lines[1]) == OriginText(d.origin)
      && Kind(lines[2]) == "s=" && Value(lines[2]) == d.sessionName
      && lines[3..] == PreRest(d)
  {
    var lines := SessionLines(d);
    assert IntToString(0) == "0";
    LineParts("o=", OriginText(d.origin));
    LineParts("s=", d.sessionName);
    Regroup9(HeadLines(d), OptionalLines("i=", d.sessionInfo), OptionalLines("u=", d.uri), OptionalLines("e=", d.email),
      OptionalLines("p=", d.phone), ["c=" + ConnectionText(d.connection)], LinesOf("b=", d.bandwidth),
      TimingsLines(d.timing), TailLines(d));
    assert lines[..3] == HeadLines(d);
  }
}
