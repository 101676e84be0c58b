/**
 * MSRP URIs (src/Uri.js, RFC 4975 section 6):
 * `msrp[s]://[user@]authority[:port]/session-id;transport`.
 *
 * `ParseUri` cuts a URI at the first "://", the first '/' after it and the
 * first ';' after it; `Format` writes the fields back out; `Equals`
 * compares two URIs the way the library routes requests. The class `Uri`
 * holds the fields and the cached text, as the source object does.
 *
 * A port set from a number (`localUri.port = 2855`) is modelled by its
 * decimal text: string concatenation and `parseInt` treat the two alike.
 */
module Uris {
  import opened Wrappers
  import opened JsString

  datatype UriFields = UriFields(
    secure: bool,
    user: Option<string>,
    authority: string,
    port: Option<string>,
    sessionId: string,
    transport: string)

  /** The fields of `new Uri()` before anything is assigned. */
  const Defaults := UriFields(false, None, "", None, "", "tcp")

  /** A JavaScript string option is truthy when present and not empty. */
  predicate Truthy(o: Option<string>)
  {
    o.Some? && o.value != ""
  }

  /** The user and the authority of the text between "://" and the path. */
  function SplitUser(a: string): (string, Option<string>)
  {
    var at := IndexOf(a, "@", 0);
    if at == -1 then (a, None) else (a[at + 1..], Some(a[..at]))
  }

  /** The host and the port of the authority. */
  function SplitPort(a: string): (string, Option<string>)
  {
    var sep := IndexOf(a, ":", 0);
    if sep == -1 then (a, None) else (a[..sep], Some(a[sep + 1..]))
  }

  /**
   * `Uri.prototype.parse(uri)`: the fields, or the TypeError it throws.
   * Everything after the scheme's "://" is cut by `ParseAfter`.
   */
  function ParseUri(s: string): Outcome<UriFields>
  {
    var colon := IndexOf(s, "://", 0);
    if colon == -1 then Threw("Invalid MSRP URI")
    else
      var scheme := ToLower(s[..colon]);
      if scheme != "msrp" && scheme != "msrps" then Threw("Invalid MSRP URI (unknown scheme)")
      else ParseAfter(scheme == "msrps", s, colon + 3)
  }

  /**
   * Lines 46-72, from the offset `from` just after the "://": the authority
   * part runs to the first '/', the session id from there to the first ';'
   * and the transport to the end. The ';' is searched from `from`, not from
   * the '/', so a ';' before the '/' makes `substring` swap its arguments.
   */
  function ParseAfter(secure: bool, s: string, from: nat): Outcome<UriFields>
    requires from <= |s|
  {
    match Pieces(s, from)
    case Threw(e) => Threw(e)
    case Returned((a, sessionId, transport)) => Returned(Cut(secure, a, sessionId, transport))
  }

  /** The authority part, the session id and the transport, before the user and the port come off. */
  function Pieces(s: string, from: nat): Outcome<(string, string, string)>
    requires from <= |s|
  {
    var path := IndexOf(s, "/", from);
    if path == -1 then Threw("Invalid MSRP URI (no session ID)")
    else
      var semi := IndexOf(s, ";", from);
      if semi == -1 then Threw("Invalid MSRP URI (no transport)")
      else Returned((s[from..path], Substring(s, path + 1, semi), s[semi + 1..]))
  }

  /** Lines 53-64: the user and the port come off the authority part. */
  function Cut(secure: bool, a: string, sessionId: string, transport: string): UriFields
  {
    var (rest, user) := SplitUser(a);
    var (authority, port) := SplitPort(rest);
    UriFields(secure, user, authority, port, sessionId, transport)
  }

  function SchemeText(secure: bool): string
  {
    if secure then "msrps" else "msrp"
  }

  /** The authority part `toString` writes: a truthy user and '@', the authority, ':' and a truthy port. */
  function AuthorityText(f: UriFields): string
  {
    (if Truthy(f.user) then f.user.value + "@" else "") + f.authority + (if Truthy(f.port) then ":" + f.port.value else "")
  }

  /** Everything `toString` writes after the "://". */
  function HierText(f: UriFields): string
  {
    AuthorityText(f) + "/" + f.sessionId + ";" + f.transport
  }

  /** `toString()` of a URI with nothing cached: a falsy user or port is left out. */
  function Format(f: UriFields): string
  {
    SchemeText(f.secure) + "://" + HierText(f)
  }

  /**
   * `equals(uri)`: the user is ignored; the scheme must agree, the authority
   * and the transport up to case, the session id exactly, and the ports as
   * `parseInt` reads them. `parseInt` of an absent or non-numeric port is
   * NaN, which equals nothing.
   */
  predicate Equals(a: UriFields, b: UriFields)
  {
    && b.secure == a.secure
    && ToLower(b.authority) == ToLower(a.authority)
    && PortValue(b.port).Some? && PortValue(b.port) == PortValue(a.port)
    && b.sessionId == a.sessionId
    && ToLower(b.transport) == ToLower(a.transport)
  }

  /** `parseInt(port, 10)`, where `null` reads as the text "null". */
  function PortValue(p: Option<string>): Option<int>
  {
    ParseInt(p.GetOr("null"))
  }

  /** `new Uri(uri)`: a falsy argument leaves the defaults; any other is parsed. */
  function New(s: string): Outcome<UriFields>
  {
    if s == "" then Returned(Defaults) else ParseUri(s)
  }

  /** `equals(str)` for a string argument, which is first made into a URI (and may throw). */
  function EqualsText(a: UriFields, s: string): Outcome<bool>
  {
    match New(s)
    case Threw(e) => Threw(e)
    case Returned(b) => Returned(Equals(a, b))
  }

  // ---------------------------------------------------------------------
  // properties

  /**
   * Lines 25-72: parsing throws exactly when there is no "://", the scheme
   * is neither msrp nor msrps in any case, or no '/' or no ';' follows the
   * "://".
   */
  lemma ParseThrows(s: string)
    ensures ParseUri(s).Threw? <==>
      var colon := IndexOf(s, "://", 0);
      colon == -1
      || (ToLower(s[..colon]) != "msrp" && ToLower(s[..colon]) != "msrps")
      || IndexOf(s, "/", colon + 3) == -1
      || IndexOf(s, ";", colon + 3) == -1
  {
    var colon := IndexOf(s, "://", 0);
    if colon != -1 && (ToLower(s[..colon]) == "msrp" || ToLower(s[..colon]) == "msrps") {
      ParseScheme(s, colon);
      assert Pieces(s, colon + 3).Threw? <==> IndexOf(s, "/", colon + 3) == -1 || IndexOf(s, ";", colon + 3) == -1;
    }
  }

  /** Lines 33-43: a parsed URI is secure exactly when its scheme is msrps, in any case. */
  lemma ParseSecure(s: string)
    requires ParseUri(s).Returned?
    ensures ParseUri(s).value.secure <==> ToLower(s[..IndexOf(s, "://", 0)]) == "msrps"
  {
  }

  /**
   * Lines 53-64: the user is the text before the first '@' of the
   * authority part and the port the text after the first ':' of the rest;
   * put back together with their separators they give the authority part.
   */
  lemma CutFields(secure: bool, a: string, sessionId: string, transport: string)
    ensures var f := Cut(secure, a, sessionId, transport);
      && a == (if f.user.Some? then f.user.value + "@" else "") + f.authority + (if f.port.Some? then ":" + f.port.value else "")
      && (f.user.Some? ==> '@' !in f.user.value) && (f.user.None? ==> '@' !in a)
      && ':' !in f.authority
      && f.secure == secure && f.sessionId == sessionId && f.transport == transport
  {
    var (rest, user) := SplitUser(a);
    var (host, port) := SplitPort(rest);
    SplitUserFields(a);
    SplitPortFields(rest);
    var u, p := (if user.Some? then user.value + "@" else ""), (if port.Some? then ":" + port.value else "");
    assert a == u + (host + p);
    assert a == u + host + p;
  }

  lemma SplitUserFields(a: string)
    ensures var (rest, user) := SplitUser(a);
      && a == (if user.Some? then user.value + "@" else "") + rest
      && (user.Some? ==> '@' !in user.value) && (user.None? ==> '@' !in a)
  {
    var at := IndexOf(a, "@", 0);
    if at != -1 {
      FirstChar(a, '@', at);
      assert a == a[..at] + "@" + a[at + 1..];
    } else {
      NotFound(a, '@');
    }
  }

  lemma SplitPortFields(a: string)
    ensures var (authority, port) := SplitPort(a);
      && a == authority + (if port.Some? then ":" + port.value else "")
      && ':' !in authority
  {
    var sep := IndexOf(a, ":", 0);
    if sep != -1 {
      FirstChar(a, ':', sep);
      assert a == a[..sep] + ":" + a[sep + 1..];
    } else {
      NotFound(a, ':');
    }
  }

  /** The first occurrence of a one-character pattern has none of that character before it. */
  lemma FirstChar(s: string, c: char, k: int)
    requires k == IndexOf(s, [c], 0) && k != -1
    ensures 0 <= k < |s| && s[k] == c && c !in s[..k]
  {
    IndexOfFirst(s, [c], 0);
    forall i | 0 <= i < k
      ensures s[i] != c
    {
      assert !OccursAt(s, [c], i);
      assert s[i..i + 1] == [s[i]];
    }
    assert s[k..k + 1] == [c];
  }

  /** A character that `indexOf` does not find does not occur. */
  lemma NotFound(s: string, c: char)
    requires IndexOf(s, [c], 0) == -1
    ensures c !in s
  {
    IndexOfFirst(s, [c], 0);
    forall i | 0 <= i < |s|
      ensures s[i] != c
    {
      assert !OccursAt(s, [c], i);
      assert s[i..i + 1] == [s[i]];
    }
  }

  /** The fields that `Format` writes so that `ParseUri` reads them back. */
  predicate Plain(f: UriFields)
  {
    && (f.user.Some? ==> f.user.value != "" && '@' !in f.user.value && '/' !in f.user.value && ';' !in f.user.value)
    && (f.user.None? ==> '@' !in f.authority && (f.port.Some? ==> '@' !in f.port.value))
    && ':' !in f.authority && '/' !in f.authority && ';' !in f.authority
    && (f.port.Some? ==> f.port.value != "" && '/' !in f.port.value && ';' !in f.port.value)
    && ';' !in f.sessionId
  }

  /**
   * Lines 24-105: parsing a formatted URI gives back its fields, when no
   * field holds a separator a later step would cut at and neither the user
   * nor the port is empty (`toString` drops a falsy one).
   */
  lemma ParseFormat(f: UriFields)
    requires Plain(f)
    ensures ParseUri(Format(f)) == Returned(f)
  {
    var scheme, h := SchemeText(f.secure), HierText(f);
    var s := Format(f);
    FirstOf(scheme, "://", h);
    var colon := |scheme|;
    assert s[..colon] == scheme;
    assert ToLower(scheme) == scheme;
    assert s == (scheme + "://") + h;
    ParseAfterShift(f.secure, scheme + "://", h);
    ParseHier(f);
  }

  /** Cutting after a prefix is cutting the rest on its own. */
  lemma ParseAfterShift(secure: bool, x: string, h: string)
    ensures ParseAfter(secure, x + h, |x|) == ParseAfter(secure, h, 0)
  {
    IndexOfShift(x, h, "/", 0);
    IndexOfShift(x, h, ";", 0);
    var path, semi := IndexOf(h, "/", 0), IndexOf(h, ";", 0);
    if path != -1 && semi != -1 {
      ShiftCuts(secure, x, h, path, semi);
      AfterCuts(secure, h, 0, path, semi);
    }
  }

  lemma ShiftCuts(secure: bool, x: string, h: string, path: int, semi: int)
    requires path == IndexOf(h, "/", 0) && semi == IndexOf(h, ";", 0) && path != -1 && semi != -1
    requires IndexOf(x + h, "/", |x|) == |x| + path && IndexOf(x + h, ";", |x|) == |x| + semi
    ensures ParseAfter(secure, x + h, |x|) == Returned(Cut(secure, h[..path], Substring(h, path + 1, semi), h[semi + 1..]))
  {
    var p, q := |x| + path, |x| + semi;
    ShiftSlices(x, h, path, semi, p, q);
    AfterCuts(secure, x + h, |x|, p, q);
  }

  lemma ShiftSlices(x: string, h: string, path: int, semi: int, p: int, q: int)
    requires 0 <= path < |h| && 0 <= semi < |h| && p == |x| + path && q == |x| + semi
    ensures (x + h)[|x|..p] == h[..path] && (x + h)[q + 1..] == h[semi + 1..]
    ensures Substring(x + h, p + 1, q) == Substring(h, path + 1, semi)
  {
    var s := x + h;
    assert s[|x|..|x| + path] == h[..path];
    assert s[|x| + semi + 1..] == h[semi + 1..];
    SubstringShift(x, h, path + 1, semi);
  }

  lemma SubstringShift(x: string, h: string, i: nat, j: nat)
    requires i <= |h| + 1 && j < |h|
    ensures Substring(x + h, |x| + i, |x| + j) == Substring(h, i, j)
  {
    if i <= j {
      assert (x + h)[|x| + i..|x| + j] == h[i..j];
    } else if i <= |h| {
      assert (x + h)[|x| + j..|x| + i] == h[j..i];
    } else {
      assert (x + h)[|x| + j..|x| + |h|] == h[j..|h|];
    }
  }

  /** The text after the "://" of a formatted URI is cut back into the fields. */
  lemma ParseHier(f: UriFields)
    requires Plain(f)
    ensures ParseAfter(f.secure, HierText(f), 0) == Returned(f)
  {
    HierPieces(f);
    UserSplit(f);
  }

  lemma HierPieces(f: UriFields)
    requires Plain(f)
    ensures Pieces(HierText(f), 0) == Returned((AuthorityText(f), f.sessionId, f.transport))
  {
    var a, h := AuthorityText(f), HierText(f);
    AuthorityFree(f);
    HierCuts(a, f.sessionId, f.transport);
    var path, semi := |a|, |a| + 1 + |f.sessionId|;
    assert h[0..path] == a;
  }

  lemma AuthorityFree(f: UriFields)
    requires Plain(f)
    ensures '/' !in AuthorityText(f) && ';' !in AuthorityText(f)
  {
  }

  /** Where `ParseAfter` cuts a text with one '/' and then one ';' after a plain authority part. */
  lemma HierCuts(a: string, sessionId: string, transport: string)
    requires '/' !in a && ';' !in a && ';' !in sessionId
    ensures var h := a + "/" + sessionId + ";" + transport;
      var path, semi := |a|, |a| + 1 + |sessionId|;
      && IndexOf(h, "/", 0) == path && IndexOf(h, ";", 0) == semi
      && h[..path] == a && Substring(h, path + 1, semi) == sessionId && h[semi + 1..] == transport
  {
    var h := a + "/" + sessionId + ";" + transport;
    var tail := sessionId + ";" + transport;
    assert h == a + "/" + tail;
    FirstOf(a, "/", tail);
    FirstOf(a + "/" + sessionId, ";", transport);
    var path, semi := |a|, |a| + 1 + |sessionId|;
    assert h[path + 1..semi] == sessionId;
  }

  lemma UserSplit(f: UriFields)
    requires Plain(f)
    ensures Cut(f.secure, AuthorityText(f), f.sessionId, f.transport) == f
  {
    var p := if f.port.Some? then ":" + f.port.value else "";
    var b := f.authority + p;
    UserOff(f, b);
    PortOff(f, b);
  }

  lemma UserOff(f: UriFields, b: string)
    requires Plain(f) && b == f.authority + (if f.port.Some? then ":" + f.port.value else "")
    ensures SplitUser(AuthorityText(f)) == (b, f.user)
  {
    var a := AuthorityText(f);
    if f.user.Some? {
      assert a == f.user.value + "@" + b;
      FirstOf(f.user.value, "@", b);
      assert a[..|f.user.value|] == f.user.value && a[|f.user.value| + 1..] == b;
    } else {
      assert a == b;
      IndexOfCharAbsent(a, '@', 0);
    }
  }

  lemma PortOff(f: UriFields, b: string)
    requires Plain(f) && b == f.authority + (if f.port.Some? then ":" + f.port.value else "")
    ensures SplitPort(b) == (f.authority, f.port)
  {
    if f.port.Some? {
      assert b == f.authority + ":" + f.port.value;
      FirstOf(f.authority, ":", f.port.value);
      assert b[..|f.authority|] == f.authority && b[|f.authority| + 1..] == f.port.value;
    } else {
      assert b == f.authority;
      IndexOfCharAbsent(b, ':', 0);
    }
  }

  /** `parseInt` of a text that starts with a letter is NaN. */
  lemma LetterNaN(s: string)
    requires |s| > 0 && !IsSpace(s[0]) && !IsDigit(s[0]) && s[0] != '-' && s[0] != '+'
    ensures ParseInt(s).None?
  {
    assert TrimStart(s) == s;
  }

  /**
   * Lines 126-128: two URIs without a port are never equal, not even to
   * themselves, because `parseInt(null, 10)` is NaN.
   */
  lemma PortlessUnequal(a: UriFields, b: UriFields)
    requires a.port.None? || b.port.None?
    ensures !Equals(a, b)
  {
    LetterNaN("null");
  }

  /** Lines 107-139: the user plays no part in the comparison. */
  lemma EqualsIgnoresUser(a: UriFields, b: UriFields, u: Option<string>, v: Option<string>)
    ensures Equals(a, b) <==> Equals(a.(user := u), b.(user := v))
  {
  }

  /** The comparison is symmetric, and holds between a URI and itself exactly when its port reads as a number. */
  lemma EqualsSymmetric(a: UriFields, b: UriFields)
    ensures Equals(a, b) <==> Equals(b, a)
    ensures Equals(a, a) <==> PortValue(a.port).Some?
  {
  }

  /** Case matters for the session id, not for the authority or the transport. */
  lemma EqualsUpToCase(a: UriFields)
    requires PortValue(a.port).Some?
    ensures Equals(a, a.(authority := ToLower(a.authority), transport := ToLower(a.transport)))
  {
    LowerIdempotent(a.authority);
    LowerIdempotent(a.transport);
  }

  lemma LowerIdempotent(s: string)
    ensures ToLower(ToLower(s)) == ToLower(s)
  {
  }

  // ---------------------------------------------------------------------
  // examples (test/Uri.js)

  /**
   * The four URIs of the tests parse to the fields the tests expect. Each
   * is shown by its fields being plain and formatting to that text.
   */
  lemma SampleBasic()
    ensures ParseUri("msrp://test.invalid/1234;tcp") == Returned(UriFields(false, None, "test.invalid", None, "1234", "tcp"))
  {
    PlainBasic();
    FormatBasic();
    SampleParses(UriFields(false, None, "test.invalid", None, "1234", "tcp"), "msrp://test.invalid/1234;tcp");
  }

  lemma PlainBasic()
    ensures Plain(UriFields(false, None, "test.invalid", None, "1234", "tcp"))
  {
    HostFree();
  }

  lemma FormatBasic()
    ensures Format(UriFields(false, None, "test.invalid", None, "1234", "tcp")) == "msrp://test.invalid/1234;tcp"
  {
    HierBasic();
    TextBasic();
  }

  lemma TextBasic()
    ensures "msrp" + "://" + "test.invalid/1234;tcp" == "msrp://test.invalid/1234;tcp"
  {
  }

  lemma HierBasic()
    ensures HierText(UriFields(false, None, "test.invalid", None, "1234", "tcp")) == "test.invalid/1234;tcp"
  {
    assert AuthorityText(UriFields(false, None, "test.invalid", None, "1234", "tcp")) == "test.invalid";
  }

  lemma SampleUser()
    ensures ParseUri("msrp://alice@test.invalid/1234;tcp") == Returned(UriFields(false, Some("alice"), "test.invalid", None, "1234", "tcp"))
  {
    PlainUser();
    FormatUser();
    SampleParses(UriFields(false, Some("alice"), "test.invalid", None, "1234", "tcp"), "msrp://alice@test.invalid/1234;tcp");
  }

  lemma PlainUser()
    ensures Plain(UriFields(false, Some("alice"), "test.invalid", None, "1234", "tcp"))
  {
    HostFree();
  }

  lemma FormatUser()
    ensures Format(UriFields(false, Some("alice"), "test.invalid", None, "1234", "tcp")) == "msrp://alice@test.invalid/1234;tcp"
  {
    HierUser();
    TextUser();
  }

  lemma TextUser()
    ensures "msrp" + "://" + "alice@test.invalid/1234;tcp" == "msrp://alice@test.invalid/1234;tcp"
  {
  }

  lemma HierUser()
    ensures HierText(UriFields(false, Some("alice"), "test.invalid", None, "1234", "tcp")) == "alice@test.invalid/1234;tcp"
  {
    AuthorityUser();
    assert "alice@test.invalid" + "/" + "1234" + ";" + "tcp" == "alice@test.invalid/1234;tcp";
  }

  lemma AuthorityUser()
    ensures AuthorityText(UriFields(false, Some("alice"), "test.invalid", None, "1234", "tcp")) == "alice@test.invalid"
  {
    assert "alice" + "@" + "test.invalid" == "alice@test.invalid";
  }

  lemma SamplePort()
    ensures ParseUri("msrp://test.invalid:9876/1234;tcp") == Returned(UriFields(false, None, "test.invalid", Some("9876"), "1234", "tcp"))
  {
    PlainPort();
    FormatPort();
    SampleParses(UriFields(false, None, "test.invalid", Some("9876"), "1234", "tcp"), "msrp://test.invalid:9876/1234;tcp");
  }

  lemma PlainPort()
    ensures Plain(UriFields(false, None, "test.invalid", Some("9876"), "1234", "tcp"))
  {
    HostFree();
  }

  lemma FormatPort()
    ensures Format(UriFields(false, None, "test.invalid", Some("9876"), "1234", "tcp")) == "msrp://test.invalid:9876/1234;tcp"
  {
    HierPort();
    TextPort();
  }

  lemma TextPort()
    ensures "msrp" + "://" + "test.invalid:9876/1234;tcp" == "msrp://test.invalid:9876/1234;tcp"
  {
  }

  lemma HierPort()
    ensures HierText(UriFields(false, None, "test.invalid", Some("9876"), "1234", "tcp")) == "test.invalid:9876/1234;tcp"
  {
    assert AuthorityText(UriFields(false, None, "test.invalid", Some("9876"), "1234", "tcp")) == "test.invalid:9876";
  }

  lemma SampleSecure()
    ensures ParseUri("msrps://test.invalid/1234;tcp") == Returned(UriFields(true, None, "test.invalid", None, "1234", "tcp"))
  {
    PlainSecure();
    FormatSecure();
    SampleParses(UriFields(true, None, "test.invalid", None, "1234", "tcp"), "msrps://test.invalid/1234;tcp");
  }

  lemma PlainSecure()
    ensures Plain(UriFields(true, None, "test.invalid", None, "1234", "tcp"))
  {
    HostFree();
  }

  lemma FormatSecure()
    ensures Format(UriFields(true, None, "test.invalid", None, "1234", "tcp")) == "msrps://test.invalid/1234;tcp"
  {
    HierSecure();
    TextSecure();
  }

  lemma TextSecure()
    ensures "msrps" + "://" + "test.invalid/1234;tcp" == "msrps://test.invalid/1234;tcp"
  {
  }

  lemma HierSecure()
    ensures HierText(UriFields(true, None, "test.invalid", None, "1234", "tcp")) == "test.invalid/1234;tcp"
  {
    assert AuthorityText(UriFields(true, None, "test.invalid", None, "1234", "tcp")) == "test.invalid";
  }

  /** The host of the test URIs holds none of the separators. */
  lemma HostFree()
    ensures '@' !in "test.invalid" && ':' !in "test.invalid" && '/' !in "test.invalid" && ';' !in "test.invalid"
  {
  }

  lemma SampleParses(f: UriFields, s: string)
    requires Plain(f) && Format(f) == s
    ensures ParseUri(s) == Returned(f)
  {
    ParseFormat(f);
  }

  /** An unknown scheme and text without "://" both throw. */
  lemma SampleThrows()
    ensures ParseUri("ws://test.invalid/1234;tcp").Threw?
    ensures ParseUri("random string").Threw?
  {
    SampleUnknownScheme();
    SampleNoScheme();
  }

  lemma SampleUnknownScheme()
    ensures ParseUri("ws://test.invalid/1234;tcp").Threw?
  {
    WsText();
    FirstOf("ws", "://", "test.invalid/1234;tcp");
    WsScheme();
  }

  lemma WsText()
    ensures "ws" + "://" + "test.invalid/1234;tcp" == "ws://test.invalid/1234;tcp"
  {
  }

  lemma WsScheme()
    ensures "ws://test.invalid/1234;tcp"[..2] == "ws"
  {
  }

  lemma SampleNoScheme()
    ensures ParseUri("random string").Threw?
  {
    IndexOfCharAbsent("random string", ':', 0);
    NoPattern("random string", "://");
  }

  /** A pattern whose first character does not occur is not found. */
  lemma NoPattern(s: string, pat: string)
    requires |pat| > 0 && IndexOf(s, [pat[0]], 0) == -1
    ensures IndexOf(s, pat, 0) == -1
  {
    IndexOfFirst(s, [pat[0]], 0);
    forall k | 0 <= k
      ensures !OccursAt(s, pat, k)
    {
      assert !OccursAt(s, [pat[0]], k);
      if k < |s| {
        assert s[k..k + 1] == [s[k]];
      }
    }
    IndexOfNone(s, pat, 0);
  }

  /** A ';' inside the authority makes the session id run backwards over it. */
  lemma SampleSemicolonFirst()
    ensures ParseUri("msrp://a;b/c") == Returned(UriFields(false, None, "a;b", None, ";b/", "b/c"))
  {
    SemicolonScheme();
    SemicolonHier();
  }

  lemma SemicolonScheme()
    ensures ParseUri("msrp://a;b/c") == ParseAfter(false, "a;b/c", 0)
  {
    SemicolonText();
    FirstOf("msrp", "://", "a;b/c");
    ParseScheme("msrp://a;b/c", 4);
    ParseAfterShift(false, "msrp://", "a;b/c");
  }

  lemma SemicolonText()
    ensures "msrp" + "://" + "a;b/c" == "msrp://a;b/c" && "msrp://" + "a;b/c" == "msrp://a;b/c"
    ensures "msrp://a;b/c"[..4] == "msrp" && |"msrp://"| == 7
  {
  }

  lemma SemicolonHier()
    ensures ParseAfter(false, "a;b/c", 0) == Returned(UriFields(false, None, "a;b", None, ";b/", "b/c"))
  {
    SemicolonIndices();
    AfterCuts(false, "a;b/c", 0, 3, 1);
    SemicolonPieces();
    SemicolonCut();
  }

  lemma SemicolonIndices()
    ensures IndexOf("a;b/c", "/", 0) == 3 && IndexOf("a;b/c", ";", 0) == 1
  {
    FirstOf("a;b", "/", "c");
    FirstOf("a", ";", "b/c");
  }

  lemma SemicolonPieces()
    ensures "a;b/c"[0..3] == "a;b" && Substring("a;b/c", 4, 1) == ";b/" && "a;b/c"[2..] == "b/c"
  {
  }

  lemma SemicolonCut()
    ensures Cut(false, "a;b", ";b/", "b/c") == UriFields(false, None, "a;b", None, ";b/", "b/c")
  {
    IndexOfCharAbsent("a;b", '@', 0);
    IndexOfCharAbsent("a;b", ':', 0);
  }

  // ---------------------------------------------------------------------
  // the object

  /**
   * The fields after `parse` on an object that held `prev`: those parsed,
   * except a user or a port the text lacks, which keeps its old value.
   */
  function Onto(prev: UriFields, f: UriFields): (g: UriFields)
    ensures g.secure == f.secure && g.authority == f.authority
    ensures g.sessionId == f.sessionId && g.transport == f.transport
    ensures g.user == if f.user.Some? then f.user else prev.user
    ensures g.port == if f.port.Some? then f.port else prev.port
  {
    f.(user := if f.user.Some? then f.user else prev.user,
       port := if f.port.Some? then f.port else prev.port)
  }

  /** On a new object, whose user and port are unset, `parse` leaves exactly the parsed fields. */
  lemma OntoDefaults(f: UriFields)
    ensures Onto(Defaults, f) == f
  {
  }

  /** A known scheme: what is left to parse is everything after the "://". */
  lemma ParseScheme(s: string, colon: int)
    requires colon == IndexOf(s, "://", 0) && colon != -1
    requires ToLower(s[..colon]) == "msrp" || ToLower(s[..colon]) == "msrps"
    ensures ParseUri(s) == ParseAfter(ToLower(s[..colon]) == "msrps", s, colon + 3)
  {
  }

  /** Where `ParseAfter` cuts, when it finds both separators. */
  lemma AfterCuts(secure: bool, s: string, from: nat, path: int, semi: int)
    requires from <= |s| && path == IndexOf(s, "/", from) && semi == IndexOf(s, ";", from)
    requires path != -1 && semi != -1
    ensures ParseAfter(secure, s, from) == Returned(Cut(secure, s[from..path], Substring(s, path + 1, semi), s[semi + 1..]))
  {
    assert Pieces(s, from) == Returned((s[from..path], Substring(s, path + 1, semi), s[semi + 1..]));
  }

  /** The step-by-step cuts of `parse` agree with `Cut`, up to the fields it leaves alone. */
  lemma CutOnto(prev: UriFields, secure: bool, a: string, sessionId: string, transport: string, g: UriFields)
    requires g.secure == secure && g.sessionId == sessionId && g.transport == transport
    requires var (rest, user) := SplitUser(a);
      var (host, port) := SplitPort(rest);
      && g.authority == host
      && g.user == (if user.Some? then user else prev.user)
      && g.port == (if port.Some? then port else prev.port)
    ensures g == Onto(prev, Cut(secure, a, sessionId, transport))
  {
  }

  class Uri {
    var secure: bool
    var user: Option<string>
    var authority: string
    var port: Option<string>
    var sessionId: string
    var transport: string
    /** `this.uri`, the cached text. */
    var uri: Option<string>

    function Fields(): UriFields
      reads this
    {
      UriFields(secure, user, authority, port, sessionId, transport)
    }

    /** `new Uri()` */
    constructor ()
      ensures Fields() == Defaults && uri == None
    {
      secure, user, authority, port := false, None, "", None;
      sessionId, transport := "", "tcp";
      uri := None;
    }

    /**
     * `parse(uri)`, assigning the fields one step at a time; it answers
     * false where the source throws. A user or a port the text does not
     * have is not assigned, so the object keeps the one it had.
     */
    method Parse(s: string) returns (ok: bool)
      modifies this
      ensures ok <==> ParseUri(s).Returned?
      ensures ok ==> Fields() == Onto(old(Fields()), ParseUri(s).value)
      ensures uri == old(uri)
    {
      var colon := IndexOf(s, "://", 0);
      if colon == -1 {
        ParseThrows(s);
        return false;
      }
      var scheme := ToLower(s[..colon]);
      if scheme == "msrp" {
        secure := false;
      } else if scheme == "msrps" {
        secure := true;
      } else {
        ParseThrows(s);
        return false;
      }
      ParseScheme(s, colon);
      ok := ParseRest(s, colon + 3);
    }

    /** Lines 45-72: the cuts after the "://", on a URI whose scheme is known. */
    method ParseRest(s: string, from: nat) returns (ok: bool)
      requires from <= |s|
      modifies this
      ensures ok <==> ParseAfter(old(secure), s, from).Returned?
      ensures ok ==> Fields() == Onto(old(Fields()), ParseAfter(old(secure), s, from).value)
      ensures uri == old(uri) && secure == old(secure)
    {
      ghost var prev := Fields();
      var path := IndexOf(s, "/", from);
      if path == -1 {
        return false;
      }
      var a := s[from..path];
      SetAuthority(a);
      var semi := IndexOf(s, ";", from);
      if semi == -1 {
        return false;
      }
      var sid, tr := Substring(s, path + 1, semi), s[semi + 1..];
      sessionId := sid;
      transport := tr;
      AfterCuts(secure, s, from, path, semi);
      CutOnto(prev, secure, a, sid, tr, Fields());
      return true;
    }

    /** Lines 50-64: the authority part, with the user and then the port cut off it. */
    method SetAuthority(a: string)
      modifies this
      ensures var (rest, u) := SplitUser(a);
        var (host, p) := SplitPort(rest);
        && authority == host
        && user == (if u.Some? then u else old(user))
        && port == (if p.Some? then p else old(port))
      ensures secure == old(secure) && sessionId == old(sessionId) && transport == old(transport) && uri == old(uri)
    {
      var rest := a;
      authority := rest;
      var at := IndexOf(a, "@", 0);
      if at != -1 {
        user := Some(a[..at]);
        rest := a[at + 1..];
        authority := rest;
      }
      var sep := IndexOf(rest, ":", 0);
      if sep != -1 {
        port := Some(rest[sep + 1..]);
        authority := rest[..sep];
      }
    }

    /** `toString()`: the cached text, or the formatted fields, which are then cached. */
    method ToString() returns (t: string)
      modifies this
      ensures t == if Truthy(old(uri)) then old(uri).value else Format(Fields())
      ensures uri == Some(t) && Fields() == old(Fields())
    {
      if Truthy(uri) {
        return uri.value;
      }
      var s := "msrp";
      if secure {
        s := s + "s";
      }
      assert s == SchemeText(secure);
      s := s + "://";
      ghost var head := s;
      ghost var u, p := "", "";
      if Truthy(user) {
        u := user.value + "@";
        s := s + (user.value + "@");
      }
      assert s == head + u;
      s := s + authority;
      if Truthy(port) {
        p := ":" + port.value;
        s := s + (":" + port.value);
      }
      assert s == head + (u + authority + p);
      ghost var auth := u + authority + p;
      s := s + ("/" + sessionId + ";" + transport);
      FormatJoin(Fields(), head, auth, s);
      uri := Some(s);
      return s;
    }
  }

  /** The text `toString` builds piece by piece is the formatted URI. */
  lemma FormatJoin(f: UriFields, head: string, auth: string, s: string)
    requires head == SchemeText(f.secure) + "://" && auth == AuthorityText(f)
    requires s == head + auth + ("/" + f.sessionId + ";" + f.transport)
    ensures s == Format(f)
  {
  }

  /**
   * `new Uri(uri)`: a non-empty text is cached and parsed, and a parse
   * failure escapes as the constructor's exception.
   */
  method NewUri(s: string) returns (r: Outcome<Uri>)
    ensures r.Threw? <==> New(s).Threw?
    ensures r.Returned? ==> fresh(r.value) && r.value.Fields() == New(s).value
                            && r.value.uri == (if s == "" then None else Some(s))
  {
    var u := new Uri();
    if s != "" {
      u.uri := Some(s);
      var ok := u.Parse(s);
      if !ok {
        return Threw("TypeError");
      }
    }
    return Returned(u);
  }

  /** Lines 18-21 and 80-83: the text of a URI built from a string is that string. */
  method SampleRoundTrip() returns (t: string)
    ensures t == "msrp://alice@test.invalid/1234;tcp"
  {
    var r := NewUri("msrp://alice@test.invalid/1234;tcp");
    SampleUser();
    var u := r.value;
    t := u.ToString();
  }
}
