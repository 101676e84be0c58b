/**
 * The session descriptions the library offers and answers with (src/Sdp.js):
 * the Session Description Protocol of RFC 4566, in the subset an MSRP session
 * needs (RFC 4975 section 8 and RFC 5547).
 *
 * A description is a list of CRLF-terminated lines `<type>=<value>` in a
 * fixed order: v, o, s, then optional i, u, e, p, c and b lines, one or
 * more t lines each followed by its r lines, optional z, k and a lines, and
 * then the media descriptions, each an m line followed by its own i, c, b,
 * k and a lines.
 *
 * The origin, connection, timing and media parts are values here: the source
 * builds each with `new` and never changes it afterwards. The session itself
 * is the class `Session`, whose `parse` assigns its fields one line at a
 * time; the result is specified by `ParseSession`.
 *
 * A constructor in the source calls `parse` and returns `null` when it
 * fails, which `new` ignores: the caller always gets the object, with
 * whatever fields were assigned before the failure. Only a parse function's
 * boolean signals an error, and `Session.parse` never looks at the boolean
 * of the parts it builds.
 */
module Sdp {
  import opened Wrappers
  import opened JsString
  import opened Util
  import opened Assoc

  // ---------------------------------------------------------------------
  // properties and lines

  /** A text property that may never have been assigned; written into text it reads "undefined". */
  type Field = Option<string>

  function FieldText(f: Field): string
  {
    if f.Some? then f.value else "undefined"
  }

  /** The truth value of a text property that may be null: set and not empty. */
  predicate Truthy(f: Option<string>)
  {
    f.Some? && f.value != ""
  }

  /** `line.substr(0, 2)`: the type letter and '='. */
  function Kind(line: string): string
  {
    Substr(line, 0, 2)
  }

  /** `line.substr(2)`: what follows the type. */
  function Value(line: string): string
  {
    SliceFrom(line, 2)
  }

  /** `line.charAt(0) === c` */
  predicate Starts(line: string, c: char)
  {
    CharAt(line, 0) == [c]
  }

  /**
   * The text `s` followed by `pre + x + post` for each `x` of `xs`, in
   * order: a loop `for (index in xs) s += ...`.
   */
  function Each(s: string, xs: seq<string>, pre: string, post: string): string
  {
    if xs == [] then s else Each(s, xs[..|xs| - 1], pre, post) + (pre + xs[|xs| - 1] + post)
  }

  /** `for (index in xs) s += pre + xs[index] + post;` */
  method AppendEach(s0: string, xs: seq<string>, pre: string, post: string) returns (s: string)
    ensures s == Each(s0, xs, pre, post)
  {
    s := s0;
    var i := 0;
    while i < |xs|
      invariant i <= |xs|
      invariant s == Each(s0, xs[..i], pre, post)
    {
      assert xs[..i + 1][..i] == xs[..i];
      s := s + (pre + xs[i] + post);
      i := i + 1;
    }
    assert xs[..i] == xs;
  }

  /** The text `s` followed by `pre + value + post` when the property is truthy. */
  function Optional(s: string, pre: string, f: Option<string>, post: string): string
  {
    if Truthy(f) then s + (pre + f.value + post) else s
  }

  // ---------------------------------------------------------------------
  // origin: o=<username> <sess-id> <sess-version> <nettype> <addrtype> <address>

  datatype Origin = Origin(username: Field, id: Field, version: Field,
                           netType: Field, addrType: Field, address: Field)

  /** An origin none of whose fields was ever assigned. */
  const UnassignedOrigin: Origin := Origin(None, None, None, None, None, None)

  /**
   * `Origin.reset()`, at the clock reading `now` (milliseconds). The session
   * id is the current NTP time; the version copies the property `sessId`,
   * which nothing assigns, so it stays undefined.
   */
  function DefaultOrigin(now: int): Origin
  {
    Origin(Some("-"), Some(IntToString(DateToNtpTime(now))), None, Some("IN"), Some("IP4"), Some("address.invalid"))
  }

  /** `origin.parse(text)`: exactly six space-separated fields, or the origin unchanged. */
  function ParseOrigin(o: Origin, text: string): (r: (bool, Origin))
    ensures r.0 <==> |Split(text, " ")| == 6
    ensures !r.0 ==> r.1 == o
  {
    var split := Split(text, " ");
    if |split| != 6 then (false, o)
    else (true, Origin(Some(split[0]), Some(split[1]), Some(split[2]), Some(split[3]), Some(split[4]), Some(split[5])))
  }

  /** `new Origin(text)`: the defaults for an empty text, otherwise what `parse` makes of a fresh object. */
  function NewOrigin(text: string, now: int): Origin
  {
    if text == "" then DefaultOrigin(now) else ParseOrigin(UnassignedOrigin, text).1
  }

  /** `origin.toString()` */
  function OriginText(o: Origin): string
  {
    FieldText(o.username) + " " + FieldText(o.id) + " " + FieldText(o.version) + " "
    + FieldText(o.netType) + " " + FieldText(o.addrType) + " " + FieldText(o.address)
  }

  // ---------------------------------------------------------------------
  // connection: c=<nettype> <addrtype> <connection-address>

  datatype Connection = Connection(netType: Field, addrType: Field, address: Field)

  const UnassignedConnection: Connection := Connection(None, None, None)

  /** `Connection.reset()` */
  const DefaultConnection: Connection := Connection(Some("IN"), Some("IP4"), Some("address.invalid"))

  /** `connection.parse(text)`: exactly three space-separated fields, or the connection unchanged. */
  function ParseConnection(c: Connection, text: string): (r: (bool, Connection))
    ensures r.0 <==> |Split(text, " ")| == 3
    ensures !r.0 ==> r.1 == c
  {
    var split := Split(text, " ");
    if |split| != 3 then (false, c) else (true, Connection(Some(split[0]), Some(split[1]), Some(split[2])))
  }

  /** `new Connection(text)` */
  function NewConnection(text: string): Connection
  {
    if text == "" then DefaultConnection else ParseConnection(UnassignedConnection, text).1
  }

  /** `connection.toString()` */
  function ConnectionText(c: Connection): string
  {
    FieldText(c.netType) + " " + FieldText(c.addrType) + " " + FieldText(c.address)
  }

  // ---------------------------------------------------------------------
  // timing: t=<start-time> <stop-time>, then the r lines

  /**
   * A start or stop time: `null` (0 in the text: unbounded) or a `Date`,
   * given in milliseconds, or `None` for an invalid date.
   */
  datatype Time = Unbounded | Date(ms: Option<int>)

  /**
   * A timing: its bounds and its repeat lines, kept verbatim. A timing whose
   * `parse` failed has no property assigned; it is modelled by the defaults,
   * which every use reads the same way (a missing bound reads as 0, a missing
   * list of repeats as none).
   */
  datatype Timing = Timing(start: Time, stop: Time, repeat: seq<string>)

  /** `Timing.reset()` */
  const DefaultTiming: Timing := Timing(Unbounded, Unbounded, [])

  function TimeOf(token: string): Time
  {
    if token == "0" then Unbounded else Date(NtpTimeToDate(token))
  }

  /** `timing.parse(text)`: the first line holds exactly two space-separated times; the other lines are the repeats. */
  function ParseTiming(t: Timing, text: string): (r: (bool, Timing))
    ensures r.0 <==> |Split(Split(text, CRLF)[0], " ")| == 2
    ensures !r.0 ==> r.1 == t
    ensures r.0 ==> r.1.repeat == Split(text, CRLF)[1..]
  {
    var lines := Split(text, CRLF);
    var tokens := Split(lines[0], " ");
    if |tokens| != 2 then (false, t) else (true, Timing(TimeOf(tokens[0]), TimeOf(tokens[1]), lines[1..]))
  }

  /** `new Timing(text)` */
  function NewTiming(text: string): Timing
  {
    if text == "" then DefaultTiming else ParseTiming(DefaultTiming, text).1
  }

  /** A bound as text: 0 when unbounded, else whole NTP seconds; an invalid date gives "NaN". */
  function TimeText(t: Time): string
  {
    match t
    case Unbounded => "0"
    case Date(None) => "NaN"
    case Date(Some(ms)) => IntToString(DateToNtpTime(ms))
  }

  /** `timing.toString()` */
  function TimingText(t: Timing): string
  {
    Each(TimeText(t.start) + " " + TimeText(t.stop), t.repeat, CRLF, "")
  }

  /** `timing.toString()`, written as the source's loop over the repeats. */
  method TimingToString(t: Timing) returns (s: string)
    ensures s == TimingText(t)
  {
    s := AppendEach(TimeText(t.start) + " " + TimeText(t.stop), t.repeat, CRLF, "");
  }

  // ---------------------------------------------------------------------
  // attributes: a=<name> or a=<name>:<value>

  /** Attributes in the order their names were first assigned; a name alone maps to `None` (null). */
  type Attributes = Assoc<string, Option<string>>

  /** The value of an a line, assigned: split at the first ':'; an existing name is overwritten in place. */
  function AddAttribute(attrs: Attributes, value: string): Attributes
  {
    var ci := IndexOf(value, ":", 0);
    if ci == -1 then Put(attrs, value, None) else Put(attrs, value[..ci], Some(value[ci + 1..]))
  }

  /**
   * The text `s` followed by each attribute: `lead`, then `a=` and the
   * name, then ':', the value and `tail` only when the value is truthy.
   */
  function AttributesText(s: string, attrs: Attributes, lead: string, tail: string): string
  {
    if attrs == [] then s
    else AttributeText(AttributesText(s, attrs[..|attrs| - 1], lead, tail), attrs[|attrs| - 1], lead, tail)
  }

  function AttributeText(s: string, attr: (string, Option<string>), lead: string, tail: string): string
  {
    var t := s + (lead + "a=" + attr.0);
    if Truthy(attr.1) then t + (":" + attr.1.value + tail) else t
  }

  /** The loop of `toString` over the attributes. */
  method AppendAttributes(s0: string, attrs: Attributes, lead: string, tail: string) returns (s: string)
    ensures s == AttributesText(s0, attrs, lead, tail)
  {
    s := s0;
    var i := 0;
    while i < |attrs|
      invariant i <= |attrs|
      invariant s == AttributesText(s0, attrs[..i], lead, tail)
    {
      assert attrs[..i + 1][..i] == attrs[..i];
      ghost var previous := s;
      var (name, value) := attrs[i];
      s := s + (lead + "a=" + name);
      if Truthy(value) {
        s := s + (":" + value.value + tail);
      }
      assert s == AttributeText(previous, attrs[i], lead, tail);
      i := i + 1;
    }
    assert attrs[..i] == attrs;
  }

  // ---------------------------------------------------------------------
  // media: m=<media> <port> <proto> <fmt> ..., then its own lines

  /** A media description. The default port is the number 2855; the port is kept as text. */
  datatype Media = Media(media: string, port: string, proto: string, format: string,
                         title: Option<string>, connection: Option<Connection>,
                         bandwidth: seq<string>, key: Option<string>, attributes: Attributes)

  /** `Media.reset()` */
  const DefaultMedia: Media := Media("message", "2855", "TCP/MSRP", "*", None, None, [], None, [])

  const MediaKinds: set<string> := {"i=", "c=", "b=", "k=", "a="}

  /** One line after the m line, or `None` for a type a media description may not hold. */
  function MediaLine(m: Media, line: string): (r: Option<Media>)
    ensures r.Some? <==> Kind(line) in MediaKinds
  {
    var value, kind := Value(line), Kind(line);
    if kind == "i=" then Some(m.(title := Some(value)))
    else if kind == "c=" then Some(m.(connection := Some(NewConnection(value))))
    else if kind == "b=" then Some(m.(bandwidth := m.bandwidth + [value]))
    else if kind == "k=" then Some(m.(key := Some(value)))
    else if kind == "a=" then Some(m.(attributes := AddAttribute(m.attributes, value)))
    else None
  }

  /** The loop over the lines after the m line: it stops at the first line of a wrong type. */
  function MediaLines(m: Media, lines: seq<string>): (r: (bool, Media))
    decreases |lines|
  {
    if lines == [] then (true, m)
    else match MediaLine(m, lines[0])
      case None => (false, m)
      case Some(next) => MediaLines(next, lines[1..])
  }

  /** The fields the m line sets: three words, then the rest of the line as the format. */
  function MediaHead(tokens: seq<string>): Media
    requires |tokens| >= 4
  {
    DefaultMedia.(media := tokens[0], port := tokens[1], proto := tokens[2], format := Join(tokens[3..], " "))
  }

  /** `media.parse(text)`: the m line needs at least four space-separated words. */
  function ParseMedia(text: string): (r: (bool, Media))
  {
    var lines := Split(text, CRLF);
    var tokens := Split(lines[0], " ");
    if |tokens| < 4 then (false, DefaultMedia) else MediaLines(MediaHead(tokens), lines[1..])
  }

  /** `new Media(text)` */
  function NewMedia(text: string): Media
  {
    if text == "" then DefaultMedia else ParseMedia(text).1
  }

  /** `media.parse(text)`, written as the source's loop over the lines. */
  method MediaParse(text: string) returns (ok: bool, m: Media)
    ensures (ok, m) == ParseMedia(text)
  {
    m := DefaultMedia;
    var lines := Split(text, CRLF);
    var tokens := Split(lines[0], " ");
    if |tokens| < 4 {
      return false, m;
    }
    m := MediaHead(tokens);
    lines := lines[1..];
    ghost var spec := MediaLines(m, lines);
    var i := 0;
    while i < |lines|
      invariant i <= |lines|
      invariant MediaLines(m, lines[i..]) == spec
    {
      assert lines[i..][1..] == lines[i + 1..];
      var line := lines[i];
      var value, kind := Value(line), Kind(line);
      if kind == "i=" {
        m := m.(title := Some(value));
      } else if kind == "c=" {
        m := m.(connection := Some(NewConnection(value)));
      } else if kind == "b=" {
        m := m.(bandwidth := m.bandwidth + [value]);
      } else if kind == "k=" {
        m := m.(key := Some(value));
      } else if kind == "a=" {
        m := m.(attributes := AddAttribute(m.attributes, value));
      } else {
        return false, m;
      }
      i := i + 1;
    }
    return true, m;
  }

  /** `new Media(text)`, through the loop. */
  method MediaOf(text: string) returns (m: Media)
    ensures m == NewMedia(text)
  {
    if text == "" {
      m := DefaultMedia;
    } else {
      var ok;
      ok, m := MediaParse(text);
    }
  }

  /** What `media.toString()` writes before its loop over the attributes. */
  function MediaBodyText(m: Media): string
  {
    var head := m.media + " " + m.port + " " + m.proto + " " + m.format;
    var withTitle := Optional(head, CRLF + "i=", m.title, "");
    var withConnection := if m.connection.Some? then withTitle + (CRLF + "c=" + ConnectionText(m.connection.value)) else withTitle;
    Optional(Each(withConnection, m.bandwidth, CRLF + "b=", ""), CRLF + "k=", m.key, "")
  }

  /** `media.toString()`: its lines joined by CRLF, without a final CRLF. */
  function MediaText(m: Media): string
  {
    AttributesText(MediaBodyText(m), m.attributes, CRLF, "")
  }

  /** `media.toString()`, written as the source's loops. */
  method MediaToString(m: Media) returns (s: string)
    ensures s == MediaText(m)
  {
    ghost var head := m.media + " " + m.port + " " + m.proto + " " + m.format;
    s := m.media + " " + m.port + " " + m.proto + " " + m.format;
    if Truthy(m.title) {
      s := s + (CRLF + "i=" + m.title.value);
    }
    ghost var withTitle := s;
    assert withTitle == Optional(head, CRLF + "i=", m.title, "");
    if m.connection.Some? {
      s := s + (CRLF + "c=" + ConnectionText(m.connection.value));
    }
    ghost var withConnection := s;
    s := AppendEach(s, m.bandwidth, CRLF + "b=", "");
    ghost var withBandwidth := s;
    if Truthy(m.key) {
      s := s + (CRLF + "k=" + m.key.value);
    }
    assert s == Optional(withBandwidth, CRLF + "k=", m.key, "");
    assert s == MediaBodyText(m);
    s := AppendAttributes(s, m.attributes, CRLF, "");
  }

  // ---------------------------------------------------------------------
  // the session description

  /** The fields of a `Session`. */
  datatype Description = Description(
    version: int,
    origin: Origin,
    sessionName: string,
    sessionInfo: Option<string>,
    uri: Option<string>,
    email: Option<string>,
    phone: Option<string>,
    connection: Connection,
    bandwidth: seq<string>,
    timing: seq<Timing>,
    timezone: Option<string>,
    key: Option<string>,
    attributes: Attributes,
    media: seq<Media>)

  /** `Session.reset()`, at the clock reading `now`. */
  function DefaultDescription(now: int): Description
  {
    Description(0, DefaultOrigin(now), " ", None, None, None, None, DefaultConnection, [], [DefaultTiming],
      None, None, [], [])
  }

  /** How far a parse got: whether it may go on, the lines not yet read, and the fields so far. */
  datatype Parsing = Parsing(ok: bool, lines: seq<string>, d: Description)

  const PreTimingKinds: set<string> := {"i=", "u=", "e=", "p=", "c=", "b="}
  const PreMediaKinds: set<string> := {"z=", "k=", "a="}

  /** One line between the s line and the first t line, or `None` for a type not allowed there. */
  function PreTimingLine(d: Description, line: string): (r: Option<Description>)
    ensures r.Some? <==> Kind(line) in PreTimingKinds
  {
    var value, kind := Value(line), Kind(line);
    if kind == "i=" then Some(d.(sessionInfo := Some(value)))
    else if kind == "u=" then Some(d.(uri := Some(value)))
    else if kind == "e=" then Some(d.(email := Some(value)))
    else if kind == "p=" then Some(d.(phone := Some(value)))
    else if kind == "c=" then Some(d.(connection := NewConnection(value)))
    else if kind == "b=" then Some(d.(bandwidth := d.bandwidth + [value]))
    else None
  }

  /** The loop over the lines before the first line starting with 't'. */
  function PreTiming(d: Description, lines: seq<string>): (r: Parsing)
    decreases |lines|
  {
    if lines == [] || Starts(lines[0], 't') then Parsing(true, lines, d)
    else match PreTimingLine(d, lines[0])
      case None => Parsing(false, lines[1..], d)
      case Some(next) => PreTiming(next, lines[1..])
  }

  /**
   * The inner loops that gather a t line's r lines, or a media description's
   * lines up to the next m line: CRLF and each following line are appended
   * to `text` while `Starts(line, c)` is `starting`.
   */
  function Absorb(text: string, lines: seq<string>, c: char, starting: bool): (r: (string, seq<string>))
    ensures |r.1| <= |lines|
    ensures r.1 == [] || Starts(r.1[0], c) != starting
    decreases |lines|
  {
    if lines != [] && Starts(lines[0], c) == starting then Absorb(text + CRLF + lines[0], lines[1..], c, starting)
    else (text, lines)
  }

  /** The loop over the t lines: each with its r lines becomes a timing. */
  function Timings(d: Description, lines: seq<string>): (r: Parsing)
    ensures r.ok
    decreases |lines|
  {
    if lines != [] && Starts(lines[0], 't') then
      var (text, rest) := Absorb(Value(lines[0]), lines[1..], 'r', true);
      Timings(d.(timing := d.timing + [NewTiming(text)]), rest)
    else Parsing(true, lines, d)
  }

  /** One line between the timings and the first m line, or `None` for a type not allowed there. */
  function PreMediaLine(d: Description, line: string): (r: Option<Description>)
    ensures r.Some? <==> Kind(line) in PreMediaKinds
  {
    var value, kind := Value(line), Kind(line);
    if kind == "z=" then Some(d.(timezone := Some(value)))
    else if kind == "k=" then Some(d.(key := Some(value)))
    else if kind == "a=" then Some(d.(attributes := AddAttribute(d.attributes, value)))
    else None
  }

  /** The loop over the lines before the first line starting with 'm'. */
  function PreMedia(d: Description, lines: seq<string>): (r: Parsing)
    decreases |lines|
  {
    if lines == [] || Starts(lines[0], 'm') then Parsing(true, lines, d)
    else match PreMediaLine(d, lines[0])
      case None => Parsing(false, lines[1..], d)
      case Some(next) => PreMedia(next, lines[1..])
  }

  /** The loop over the m lines: each with the lines up to the next m line becomes a media description. */
  function Medias(d: Description, lines: seq<string>): (r: Parsing)
    ensures r.ok
    decreases |lines|
  {
    if lines != [] && Starts(lines[0], 'm') then
      var (text, rest) := Absorb(Value(lines[0]), lines[1..], 'm', false);
      Medias(d.(media := d.media + [NewMedia(text)]), rest)
    else Parsing(true, lines, d)
  }

  /** The lines of a description: split at CRLF, without the empty piece after a final CRLF. */
  function Lines(sdp: string): seq<string>
  {
    var all := Split(sdp, CRLF);
    if all[|all| - 1] == "" then all[..|all| - 1] else all
  }

  /** `session.parse(sdp)`: whether it succeeded, and the fields it leaves, from the defaults at `now`. */
  function ParseSession(sdp: string, now: int): (bool, Description)
  {
    var lines, d := Lines(sdp), DefaultDescription(now);
    if |lines| < 4 || lines[0] != "v=0" || Kind(lines[1]) != "o=" then (false, d)
    else
      var d := d.(origin := NewOrigin(Value(lines[1]), now));
      if Kind(lines[2]) != "s=" then (false, d)
      else
        var p := PreTiming(d.(sessionName := Value(lines[2])), lines[3..]);
        if !p.ok || p.lines == [] then (false, p.d) else AfterPreTiming(p.d, p.lines)
  }

  /** The text `s` followed by `t=` and each timing, each line ending in CRLF. */
  function TimingsText(s: string, ts: seq<Timing>): string
  {
    if ts == [] then s else TimingsText(s, ts[..|ts| - 1]) + ("t=" + TimingText(ts[|ts| - 1]) + CRLF)
  }

  /** The text `s` followed by `m=` and each media description, each ending in CRLF. */
  function MediasText(s: string, ms: seq<Media>): string
  {
    if ms == [] then s else MediasText(s, ms[..|ms| - 1]) + ("m=" + MediaText(ms[|ms| - 1]) + CRLF)
  }

  /** The loop of `session.toString()` over the timings. */
  method AppendTimings(s0: string, ts: seq<Timing>) returns (s: string)
    ensures s == TimingsText(s0, ts)
  {
    s := s0;
    var i := 0;
    while i < |ts|
      invariant i <= |ts|
      invariant s == TimingsText(s0, ts[..i])
    {
      assert ts[..i + 1][..i] == ts[..i];
      var t := TimingToString(ts[i]);
      s := s + ("t=" + t + CRLF);
      i := i + 1;
    }
    assert ts[..i] == ts;
  }

  /** The loop of `session.toString()` over the media descriptions. */
  method AppendMedias(s0: string, ms: seq<Media>) returns (s: string)
    ensures s == MediasText(s0, ms)
  {
    s := s0;
    var i := 0;
    while i < |ms|
      invariant i <= |ms|
      invariant s == MediasText(s0, ms[..i])
    {
      assert ms[..i + 1][..i] == ms[..i];
      var m := MediaToString(ms[i]);
      s := s + ("m=" + m + CRLF);
      i := i + 1;
    }
    assert ms[..i] == ms;
  }

  /** The lines of `session.toString()` before the bandwidths: v, o, s, then i, u, e, p when set, then c. */
  function Preamble(d: Description): string
  {
    var head := "v=" + IntToString(d.version) + CRLF + ("o=" + OriginText(d.origin) + CRLF) + ("s=" + d.sessionName + CRLF);
    var optional := Optional(Optional(Optional(Optional(head, "i=", d.sessionInfo, CRLF), "u=", d.uri, CRLF),
      "e=", d.email, CRLF), "p=", d.phone, CRLF);
    optional + ("c=" + ConnectionText(d.connection) + CRLF)
  }

  /**
   * `session.toString()`. Each line ends in CRLF, except the line of an
   * attribute without a truthy value: the next line follows it directly.
   */
  function SessionText(d: Description): string
  {
    var timed := TimingsText(Each(Preamble(d), d.bandwidth, "b=", CRLF), d.timing);
    var keyed := Optional(Optional(timed, "z=", d.timezone, CRLF), "k=", d.key, CRLF);
    MediasText(AttributesText(keyed, d.attributes, "", CRLF), d.media)
  }

  /** A session description, whose fields `parse` assigns line by line. */
  class Session {
    var version: int
    var origin: Origin
    var sessionName: string
    var sessionInfo: Option<string>
    var uri: Option<string>
    var email: Option<string>
    var phone: Option<string>
    var connection: Connection
    var bandwidth: seq<string>
    var timing: seq<Timing>
    var timezone: Option<string>
    var key: Option<string>
    var attributes: Attributes
    var media: seq<Media>

    function Fields(): Description
      reads this
    {
      Description(version, origin, sessionName, sessionInfo, uri, email, phone, connection, bandwidth,
        timing, timezone, key, attributes, media)
    }

    /** `new Session(sdp)`: the defaults for an empty text, else whatever `parse` leaves, even when it fails. */
    constructor (sdp: string, now: int)
      ensures Fields() == if sdp == "" then DefaultDescription(now) else ParseSession(sdp, now).1
    {
      new;
      if sdp == "" {
        Reset(now);
      } else {
        var ok := Parse(sdp, now);
      }
    }

    /** `session.reset()` */
    method Reset(now: int)
      modifies this
      ensures Fields() == DefaultDescription(now)
    {
      var d := DefaultDescription(now);
      AssignLeading(d);
      AssignTrailing(d);
    }

    /** The fields up to the bandwidths take their values in `d`. */
    method AssignLeading(d: Description)
      modifies this
      ensures Fields() == old(Fields()).(version := d.version, origin := d.origin, sessionName := d.sessionName,
        sessionInfo := d.sessionInfo, uri := d.uri, email := d.email, phone := d.phone)
    {
      version := d.version;
      origin := d.origin;
      sessionName := d.sessionName;
      sessionInfo := d.sessionInfo;
      uri := d.uri;
      email := d.email;
      phone := d.phone;
    }

    /** The fields from the connection on take their values in `d`. */
    method AssignTrailing(d: Description)
      modifies this
      ensures Fields() == old(Fields()).(connection := d.connection, bandwidth := d.bandwidth, timing := d.timing,
        timezone := d.timezone, key := d.key, attributes := d.attributes, media := d.media)
    {
      connection := d.connection;
      bandwidth := d.bandwidth;
      timing := d.timing;
      timezone := d.timezone;
      key := d.key;
      attributes := d.attributes;
      media := d.media;
    }

    /** `session.parse(sdp)` */
    method Parse(sdp: string, now: int) returns (ok: bool)
      modifies this
      ensures (ok, Fields()) == ParseSession(sdp, now)
    {
      var lines := Split(sdp, CRLF);
      Reset(now);
      if lines[|lines| - 1] == "" {
        lines := lines[..|lines| - 1];
      }
      if |lines| < 4 {
        return false;
      }
      var line := lines[0];
      lines := lines[1..];
      if line != "v=0" {
        return false;
      }
      line := lines[0];
      lines := lines[1..];
      if Kind(line) != "o=" {
        return false;
      }
      origin := NewOrigin(Value(line), now);
      line := lines[0];
      lines := lines[1..];
      if Kind(line) == "s=" {
        sessionName := Value(line);
      } else {
        return false;
      }
      ok := PreTimingLoop(lines);
    }

    /** The rest of `parse`, from the first line after the s line. */
    method PreTimingLoop(lines0: seq<string>) returns (ok: bool)
      modifies this
      ensures var p := PreTiming(old(Fields()), lines0);
        if !p.ok || p.lines == [] then !ok && Fields() == p.d
        else (ok, Fields()) == AfterPreTiming(p.d, p.lines)
    {
      var lines := lines0;
      while |lines| > 0 && !Starts(lines[0], 't')
        invariant PreTiming(Fields(), lines) == PreTiming(old(Fields()), lines0)
        decreases |lines|
      {
        var line := lines[0];
        lines := lines[1..];
        var known := PreTimingStep(line);
        if !known {
          return false;
        }
      }
      if |lines| == 0 {
        return false;
      }
      ok := TimingLoop(lines);
    }

    /** One line before the first t line, by its type; `false` for a type not allowed there. */
    method PreTimingStep(line: string) returns (known: bool)
      modifies this
      ensures var next := PreTimingLine(old(Fields()), line);
        known == next.Some? && Fields() == if known then next.value else old(Fields())
    {
      var value, kind := Value(line), Kind(line);
      known := true;
      if kind == "i=" {
        sessionInfo := Some(value);
      } else if kind == "u=" {
        uri := Some(value);
      } else if kind == "e=" {
        email := Some(value);
      } else if kind == "p=" {
        phone := Some(value);
      } else if kind == "c=" {
        connection := NewConnection(value);
      } else if kind == "b=" {
        bandwidth := bandwidth + [value];
      } else {
        known := false;
      }
    }

    /** The timing loop: each t line, with its r lines, becomes a timing. */
    method TimingLoop(lines0: seq<string>) returns (ok: bool)
      modifies this
      ensures (ok, Fields()) == AfterPreTiming(old(Fields()), lines0)
    {
      timing := [];
      var lines := lines0;
      while |lines| > 0 && Starts(lines[0], 't')
        invariant Timings(Fields(), lines) == Timings(old(Fields()).(timing := []), lines0)
        decreases |lines|
      {
        var text := Value(lines[0]);
        lines := lines[1..];
        ghost var spec := Absorb(text, lines, 'r', true);
        while |lines| > 0 && Starts(lines[0], 'r')
          invariant Absorb(text, lines, 'r', true) == spec
          decreases |lines|
        {
          text := text + CRLF + lines[0];
          lines := lines[1..];
        }
        timing := timing + [NewTiming(text)];
      }
      if |timing| == 0 {
        return false;
      }
      ok := PreMediaLoop(lines);
    }

    /** The lines between the timings and the media, then the media descriptions. */
    method PreMediaLoop(lines0: seq<string>) returns (ok: bool)
      modifies this
      ensures var q := PreMedia(old(Fields()), lines0);
        ok == q.ok && Fields() == if q.ok then Medias(q.d, q.lines).d else q.d
    {
      var lines := lines0;
      while |lines| > 0 && !Starts(lines[0], 'm')
        invariant PreMedia(Fields(), lines) == PreMedia(old(Fields()), lines0)
        decreases |lines|
      {
        var line := lines[0];
        lines := lines[1..];
        var known := PreMediaStep(line);
        if !known {
          return false;
        }
      }
      MediaLoop(lines);
      return true;
    }

    /** One line between the timings and the first m line, by its type; `false` for a type not allowed there. */
    method PreMediaStep(line: string) returns (known: bool)
      modifies this
      ensures var next := PreMediaLine(old(Fields()), line);
        known == next.Some? && Fields() == if known then next.value else old(Fields())
    {
      var value, kind := Value(line), Kind(line);
      known := true;
      if kind == "z=" {
        timezone := Some(value);
      } else if kind == "k=" {
        key := Some(value);
      } else if kind == "a=" {
        attributes := AddAttribute(attributes, value);
      } else {
        known := false;
      }
    }

    /** The loop over the m lines: each, with the lines up to the next m line, becomes a media description. */
    method MediaLoop(lines0: seq<string>)
      modifies this
      ensures Fields() == Medias(old(Fields()), lines0).d
    {
      var lines := lines0;
      while |lines| > 0 && Starts(lines[0], 'm')
        invariant Medias(Fields(), lines) == Medias(old(Fields()), lines0)
        decreases |lines|
      {
        var text := Value(lines[0]);
        lines := lines[1..];
        ghost var spec := Absorb(text, lines, 'm', false);
        while |lines| > 0 && !Starts(lines[0], 'm')
          invariant Absorb(text, lines, 'm', false) == spec
          decreases |lines|
        {
          text := text + CRLF + lines[0];
          lines := lines[1..];
        }
        var m := MediaOf(text);
        media := media + [m];
      }
    }

    /** `session.toString()` */
    method ToString() returns (s: string)
      ensures s == SessionText(Fields())
    {
      s := "v=" + IntToString(version) + CRLF;
      s := s + ("o=" + OriginText(origin) + CRLF);
      s := s + ("s=" + sessionName + CRLF);
      if Truthy(sessionInfo) {
        s := s + ("i=" + sessionInfo.value + CRLF);
      }
      if Truthy(uri) {
        s := s + ("u=" + uri.value + CRLF);
      }
      if Truthy(email) {
        s := s + ("e=" + email.value + CRLF);
      }
      if Truthy(phone) {
        s := s + ("p=" + phone.value + CRLF);
      }
      s := s + ("c=" + ConnectionText(connection) + CRLF);
      assert s == Preamble(Fields());
      s := AppendEach(s, bandwidth, "b=", CRLF);
      s := AppendTimings(s, timing);
      if Truthy(timezone) {
        s := s + ("z=" + timezone.value + CRLF);
      }
      if Truthy(key) {
        s := s + ("k=" + key.value + CRLF);
      }
      s := AppendAttributes(s, attributes, "", CRLF);
      s := AppendMedias(s, media);
    }
  }

  /** What `parse` does from the first t line on. */
  function AfterPreTiming(d: Description, lines: seq<string>): (bool, Description)
  {
    var t := Timings(d.(timing := []), lines);
    if |t.d.timing| == 0 then (false, t.d)
    else
      var q := PreMedia(t.d, t.lines);
      if !q.ok then (false, q.d) else (true, Medias(q.d, q.lines).d)
  }
}
