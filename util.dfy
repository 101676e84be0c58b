/**
 * The shared helpers of src/util.js: header-name normalisation, the map
 * emptiness test, NTP time conversion, the RFC 5547 filename-string escaping
 * and the RFC 822 quoted-string escaping.
 */
module Util {
  import opened Wrappers
  import opened JsString

  // ---------------------------------------------------------------------
  // normaliseHeader

  /** One `-`-separated part with its first character upper-cased. */
  function Capitalise(part: string): string
  {
    if part == "" then "" else [UpperChar(part[0])] + part[1..]
  }

  function CapitaliseAll(parts: seq<string>): (r: seq<string>)
    ensures |r| == |parts|
    ensures forall i :: 0 <= i < |parts| ==> r[i] == Capitalise(parts[i])
  {
    if parts == [] then [] else [Capitalise(parts[0])] + CapitaliseAll(parts[1..])
  }

  /** The capitalised parts joined with `-`. */
  function CapitalisedJoin(parts: seq<string>): string
  {
    Join(CapitaliseAll(parts), "-")
  }

  /** The two names whose canonical spelling is not plain per-part capitalisation. */
  function SpecialCase(header: string): string
  {
    if header == "Www-Authenticate" then "WWW-Authenticate"
    else if header == "Message-Id" then "Message-ID"
    else header
  }

  /**
   * Capitalisation character by character: the first character and every
   * character after a '-' upper-cased, the others kept. `atStart` says that
   * the next character begins a part.
   */
  function Capitalised(s: string, atStart: bool): (r: string)
    ensures |r| == |s|
  {
    if s == [] then [] else [if atStart then UpperChar(s[0]) else s[0]] + Capitalised(s[1..], s[0] == '-')
  }

  /** The canonical spelling of a header name. */
  function Normalise(name: string): string
  {
    SpecialCase(Capitalised(ToLower(name), true))
  }

  /** `normaliseHeader(name)`: the lower-cased name split at '-', each part capitalised, joined again. */
  method NormaliseHeader(name: string) returns (header: string)
    ensures header == Normalise(name)
  {
    var parts := Split(ToLower(name), "-");
    header := "";
    var i := 0;
    while i < |parts|
      invariant 0 <= i <= |parts|
      invariant header == CapitalisedJoin(parts[..i])
    {
      CapitalisedJoinStep(parts, i);
      if i != 0 {
        header := header + "-";
      }
      header := header + Capitalise(parts[i]);
      i := i + 1;
    }
    assert parts[..|parts|] == parts;
    CapitalisedSplit(ToLower(name));
    header := SpecialCase(header);
  }

  lemma CapitalisedJoinStep(parts: seq<string>, i: nat)
    requires i < |parts|
    ensures CapitalisedJoin(parts[..i + 1])
      == if i == 0 then Capitalise(parts[i]) else CapitalisedJoin(parts[..i]) + "-" + Capitalise(parts[i])
  {
    assert parts[..i + 1] == parts[..i] + [parts[i]];
    CapitalisedJoinSnoc(parts[..i], parts[i]);
  }

  lemma CapitalisedJoinSnoc(parts: seq<string>, last: string)
    ensures CapitalisedJoin(parts + [last])
      == if parts == [] then Capitalise(last) else CapitalisedJoin(parts) + "-" + Capitalise(last)
  {
    assert CapitaliseAll(parts + [last]) == CapitaliseAll(parts) + [Capitalise(last)];
    JoinSnoc(CapitaliseAll(parts), Capitalise(last), "-");
  }

  lemma {:induction false} JoinSnoc(parts: seq<string>, last: string, sep: string)
    ensures Join(parts + [last], sep) == if parts == [] then last else Join(parts, sep) + sep + last
    decreases |parts|
  {
    if |parts| > 1 {
      assert (parts + [last])[1..] == parts[1..] + [last];
      JoinSnoc(parts[1..], last, sep);
    } else if |parts| == 1 {
      assert (parts + [last])[1..] == [last];
    }
  }

  lemma {:induction false} CapitalisedAppend(a: string, b: string, atStart: bool)
    ensures Capitalised(a + b, atStart)
      == Capitalised(a, atStart) + Capitalised(b, if a == [] then atStart else a[|a| - 1] == '-')
    decreases |a|
  {
    if a != [] {
      var c := [if atStart then UpperChar(a[0]) else a[0]];
      assert (a + b)[0] == a[0];
      assert (a + b)[1..] == a[1..] + b;
      CapitalisedAppend(a[1..], b, a[0] == '-');
      if a[1..] != [] {
        assert a[1..][|a[1..]| - 1] == a[|a| - 1];
      }
      assert Capitalised(a + b, atStart) == c + Capitalised(a[1..] + b, a[0] == '-');
      assert Capitalised(a, atStart) == c + Capitalised(a[1..], a[0] == '-');
    } else {
      assert a + b == b;
    }
  }

  /** A part without '-' is capitalised by its first character alone. */
  lemma {:induction false} CapitalisedPart(p: string, atStart: bool)
    requires '-' !in p
    ensures Capitalised(p, atStart) == if atStart then Capitalise(p) else p
    decreases |p|
  {
    if p != [] {
      CapitalisedPart(p[1..], false);
    }
  }

  /** A name made of '-'-free parts capitalises part by part; this evaluates literal names. */
  lemma {:induction false} CapitalisedParts(a: string, b: string)
    requires '-' !in a && '-' !in b
    ensures Capitalised(a + "-" + b, true) == Capitalise(a) + "-" + Capitalise(b)
  {
    CapitalisedAppend(a, "-" + b, true);
    CapitalisedPart(a, true);
    assert ("-" + b)[1..] == b;
    CapitalisedPart(b, true);
    assert a + "-" + b == a + ("-" + b);
  }

  /** Splitting at '-' and capitalising each part is the per-character capitalisation. */
  lemma {:induction false} CapitalisedSplit(s: string)
    ensures CapitalisedJoin(Split(s, "-")) == Capitalised(s, true)
    decreases |s|
  {
    var i := IndexOf(s, "-", 0);
    IndexOfFirst(s, "-", 0);
    if i == -1 {
      NoDashBefore(s, |s|);
      assert s[..|s|] == s;
      CapitalisedPart(s, true);
    } else {
      var p, rest := s[..i], s[i + 1..];
      NoDashBefore(s, i);
      CutAt(s, "-", i);
      assert s == p + ("-" + rest);
      assert Split(s, "-") == [p] + Split(rest, "-");
      CapitalisedSplit(rest);
      CapitalisedSplitStep(p, rest);
    }
  }

  lemma CapitalisedSplitStep(p: string, rest: string)
    requires '-' !in p && CapitalisedJoin(Split(rest, "-")) == Capitalised(rest, true)
    ensures CapitalisedJoin([p] + Split(rest, "-")) == Capitalised(p + ("-" + rest), true)
  {
    var q, cr := Split(rest, "-"), Capitalised(rest, true);
    var after := if p == [] then true else p[|p| - 1] == '-';
    calc {
      CapitalisedJoin([p] + q);
    == { CapitalisedJoinCons(p, q); }
      Capitalise(p) + "-" + cr;
    == { AppendAssoc3(Capitalise(p), "-", cr); }
      Capitalise(p) + ("-" + cr);
    == { CapitalisedPart(p, true); DashCapitalised(rest, after); }
      Capitalised(p, true) + Capitalised("-" + rest, after);
    == { CapitalisedAppend(p, "-" + rest, true); }
      Capitalised(p + ("-" + rest), true);
    }
  }

  lemma AppendAssoc3(a: string, b: string, c: string)
    ensures a + b + c == a + (b + c)
  {
  }

  lemma NoDashBefore(s: string, i: nat)
    requires i <= |s|
    requires forall k :: 0 <= k < i ==> !OccursAt(s, "-", k)
    ensures '-' !in s[..i]
  {
    forall k | 0 <= k < i ensures s[k] != '-' {
      assert !OccursAt(s, "-", k);
      assert s[k..k + 1] == [s[k]];
    }
  }

  lemma CapitalisedJoinCons(p: string, parts: seq<string>)
    requires |parts| > 0
    ensures CapitalisedJoin([p] + parts) == Capitalise(p) + "-" + CapitalisedJoin(parts)
  {
    assert CapitaliseAll([p] + parts) == [Capitalise(p)] + CapitaliseAll(parts);
    assert CapitaliseAll([p] + parts)[1..] == CapitaliseAll(parts);
  }

  lemma DashCapitalised(rest: string, atStart: bool)
    ensures Capitalised("-" + rest, atStart) == "-" + Capitalised(rest, true)
  {
    assert ("-" + rest)[1..] == rest;
  }

  predicate IsLowerCase(s: string)
  {
    forall i :: 0 <= i < |s| ==> LowerChar(s[i]) == s[i]
  }

  lemma LowerIsIdentity(s: string)
    requires IsLowerCase(s)
    ensures ToLower(s) == s
  {
  }

  lemma {:induction false} LowerCapitalised(s: string, atStart: bool)
    requires IsLowerCase(s)
    ensures ToLower(Capitalised(s, atStart)) == s
    decreases |s|
  {
    if s != [] {
      LowerCapitalised(s[1..], s[0] == '-');
      ToLowerAppend([if atStart then UpperChar(s[0]) else s[0]], Capitalised(s[1..], s[0] == '-'));
    }
  }

  /** The canonical name, lower-cased, is the lower-cased input. */
  lemma NormalisePreservesLower(name: string)
    ensures ToLower(Normalise(name)) == ToLower(name)
  {
    var low := ToLower(name);
    LowerCapitalised(low, true);
    var plain := Capitalised(low, true);
    if plain == "Www-Authenticate" {
      SpecialLowerWww();
    } else if plain == "Message-Id" {
      SpecialLowerMessageId();
    }
  }

  lemma SpecialLowerWww()
    ensures ToLower("WWW-Authenticate") == ToLower("Www-Authenticate")
  {
  }

  lemma SpecialLowerMessageId()
    ensures ToLower("Message-ID") == ToLower("Message-Id")
  {
  }

  /** Normalisation depends only on the lower-cased name. */
  lemma NormaliseCaseInsensitive(a: string, b: string)
    requires ToLower(a) == ToLower(b)
    ensures Normalise(a) == Normalise(b)
  {
  }

  /** Normalising a canonical name leaves it unchanged. */
  lemma NormaliseIdempotent(name: string)
    ensures Normalise(Normalise(name)) == Normalise(name)
  {
    NormalisePreservesLower(name);
    NormaliseCaseInsensitive(Normalise(name), name);
  }

  // ---------------------------------------------------------------------
  // isEmpty

  /** `isEmpty(map)`: the map has no own keys. */
  function IsEmpty<K, V>(m: map<K, V>): (r: bool)
    ensures r <==> forall k :: k !in m
  {
    |m| == 0
  }

  // ---------------------------------------------------------------------
  // NTP time

  /** Seconds between the NTP epoch (1900) and the Unix epoch (1970). */
  const UnixToNtpOffset: int := 2208988800

  /** JavaScript's truncation of a quotient toward zero (`parseInt(a / b, 10)`). */
  function TruncDiv(a: int, b: int): int
    requires b > 0
  {
    if a >= 0 then a / b else -((-a) / b)
  }

  /** `ntpTimeToDate(ntp)`: milliseconds since the Unix epoch, or `None` for an invalid date. */
  function NtpTimeToDate(ntp: string): (r: Option<int>)
    ensures r.Some? <==> ParseInt(ntp).Some?
    ensures r.Some? ==> r.value % 1000 == 0
  {
    match ParseInt(ntp)
    case None => None
    case Some(n) => Some((n - UnixToNtpOffset) * 1000)
  }

  /** `dateToNtpTime(date)`: whole NTP seconds of a time given in milliseconds. */
  function DateToNtpTime(ms: int): int
  {
    TruncDiv(ms, 1000) + UnixToNtpOffset
  }

  /** Converting NTP seconds to a date and back is the identity. */
  lemma NtpRoundTrip(n: int)
    ensures NtpTimeToDate(IntToString(n)) == Some((n - UnixToNtpOffset) * 1000)
    ensures DateToNtpTime((n - UnixToNtpOffset) * 1000) == n
  {
    ParseIntToString(n);
    var ms := (n - UnixToNtpOffset) * 1000;
    if ms < 0 {
      assert -ms == (UnixToNtpOffset - n) * 1000;
    }
  }

  /** A date taken to NTP seconds and back is truncated toward zero to a whole second. */
  lemma DateRoundTrip(ms: int)
    ensures NtpTimeToDate(IntToString(DateToNtpTime(ms))).Some?
    ensures var back := NtpTimeToDate(IntToString(DateToNtpTime(ms))).value;
      back % 1000 == 0
      && (ms >= 0 ==> 0 <= ms - back < 1000)
      && (ms < 0 ==> 0 <= back - ms < 1000)
  {
    ParseIntToString(DateToNtpTime(ms));
  }

  // ---------------------------------------------------------------------
  // RFC 5547 filename-string

  /** `s` with `f` applied to every character and the results concatenated. */
  function ConcatMap(s: string, f: char -> string): string
  {
    if s == [] then "" else f(s[0]) + ConcatMap(s[1..], f)
  }

  lemma {:induction false} ConcatMapAppend(a: string, b: string, f: char -> string)
    ensures ConcatMap(a + b, f) == ConcatMap(a, f) + ConcatMap(b, f)
    decreases |a|
  {
    if a != [] {
      assert (a + b)[1..] == a[1..] + b;
      ConcatMapAppend(a[1..], b, f);
    } else {
      assert a + b == b;
    }
  }

  /** `pat` (compared case-insensitively when `ci`) starts `s`. */
  predicate MatchesAt0(s: string, pat: string, ci: bool)
  {
    |pat| <= |s| && (if ci then ToLower(s[..|pat|]) == ToLower(pat) else s[..|pat|] == pat)
  }

  /** `s.replace(/pat/g, rep)` (with the `i` flag when `ci`): a left-to-right scan replacing non-overlapping matches. */
  function ReplaceAll(s: string, pat: string, rep: string, ci: bool): string
    requires |pat| > 0
    decreases |s|
  {
    if s == [] then ""
    else if MatchesAt0(s, pat, ci) then rep + ReplaceAll(s[|pat|..], pat, rep, ci)
    else [s[0]] + ReplaceAll(s[1..], pat, rep, ci)
  }

  /** The RFC 5547 escape of one character. */
  function EscapeFileNameChar(c: char): string
  {
    if c == '%' then "%25"
    else if c == '\0' then "%00"
    else if c == '\n' then "%0A"
    else if c == '\r' then "%0D"
    else if c == '"' then "%22"
    else [c]
  }

  /** `encodeSdpFileName(str)`, the chain of five global replacements. */
  function EncodeSdpFileName(s: string): string
  {
    ReplaceAll(ReplaceAll(ReplaceAll(ReplaceAll(ReplaceAll(
      s, "%", "%25", false), "\0", "%00", false), "\n", "%0A", false), "\r", "%0D", false), "\"", "%22", false)
  }

  /** `decodeSdpFileName(str)`, the chain of five global replacements (two of them case-insensitive). */
  function DecodeSdpFileName(s: string): string
  {
    ReplaceAll(ReplaceAll(ReplaceAll(ReplaceAll(ReplaceAll(
      s, "%00", "\0", false), "%0A", "\n", true), "%0D", "\r", true), "%22", "\"", false), "%25", "%", false)
  }

  /** The characters RFC 5547 escapes, in the order the encoder handles them. */
  predicate Escaped(c: char)
  {
    c == '%' || c == '\0' || c == '\n' || c == '\r' || c == '"'
  }

  /** The k-th character the encoder escapes (`%` first, so no escape is escaped again). */
  predicate EncodedBy(c: char, k: nat)
  {
    (k > 0 && c == '%') || (k > 1 && c == '\0') || (k > 2 && c == '\n') || (k > 3 && c == '\r') || (k > 4 && c == '"')
  }

  function EncodeStageChar(k: nat): char
    requires k < 5
  {
    if k == 0 then '%' else if k == 1 then '\0' else if k == 2 then '\n' else if k == 3 then '\r' else '"'
  }

  /** The k-th character the decoder restores (`%` last, so no restored `%` starts another escape). */
  predicate DecodedBy(c: char, k: nat)
  {
    (k > 0 && c == '\0') || (k > 1 && c == '\n') || (k > 2 && c == '\r') || (k > 3 && c == '"') || (k > 4 && c == '%')
  }

  function DecodeStageChar(k: nat): char
    requires k < 5
  {
    if k == 0 then '\0' else if k == 1 then '\n' else if k == 2 then '\r' else if k == 3 then '"' else '%'
  }

  /** The text after the first `k` encoder stages, character by character. */
  function EncodedSoFar(c: char, k: nat): string
  {
    if EncodedBy(c, k) then EscapeFileNameChar(c) else [c]
  }

  /** The text after the first `k` decoder stages, character by character. */
  function DecodedSoFar(c: char, k: nat): string
  {
    if DecodedBy(c, k) then [c] else EscapeFileNameChar(c)
  }

  function EncodedText(s: string, k: nat): string
  {
    if s == [] then "" else EncodedSoFar(s[0], k) + EncodedText(s[1..], k)
  }

  function DecodedText(s: string, k: nat): string
  {
    if s == [] then "" else DecodedSoFar(s[0], k) + DecodedText(s[1..], k)
  }

  lemma {:induction false} ReplaceCharAppend(a: string, b: string, d: char, rep: string)
    ensures ReplaceAll(a + b, [d], rep, false) == ReplaceAll(a, [d], rep, false) + ReplaceAll(b, [d], rep, false)
    decreases |a|
  {
    if a != [] {
      assert (a + b)[1..] == a[1..] + b;
      assert (a + b)[..1] == a[..1];
      ReplaceCharAppend(a[1..], b, d, rep);
    } else {
      assert a + b == b;
    }
  }

  lemma {:induction false} ReplaceCharOfFree(t: string, d: char, rep: string)
    requires d !in t
    ensures ReplaceAll(t, [d], rep, false) == t
    decreases |t|
  {
    if t != [] {
      assert t[..1] == [t[0]];
      ReplaceCharOfFree(t[1..], d, rep);
    }
  }

  /** Encoder stage `k` escapes its character in every piece and leaves the earlier escapes alone. */
  lemma {:induction false} EncodeStage(s: string, k: nat)
    requires k < 5
    ensures ReplaceAll(EncodedText(s, k), [EncodeStageChar(k)], EscapeFileNameChar(EncodeStageChar(k)), false)
      == EncodedText(s, k + 1)
    decreases |s|
  {
    var d := EncodeStageChar(k);
    var rep := EscapeFileNameChar(d);
    if s != [] {
      var head := EncodedSoFar(s[0], k);
      var tail := EncodedText(s[1..], k);
      assert EncodedText(s, k) == head + tail;
      ReplaceCharAppend(head, tail, d, rep);
      EncodeStage(s[1..], k);
      if s[0] == d {
        assert head == [d];
        assert [d][..1] == [d];
        assert ReplaceAll([d], [d], rep, false) == rep + ReplaceAll([], [d], rep, false);
      } else {
        ReplaceCharOfFree(head, d, rep);
      }
    }
  }

  lemma {:induction false} EncodedTextEnds(s: string)
    ensures EncodedText(s, 0) == s
    ensures EncodedText(s, 5) == ConcatMap(s, EscapeFileNameChar)
    decreases |s|
  {
    if s != [] {
      EncodedTextEnds(s[1..]);
    }
  }

  lemma {:induction false} DecodedTextEnds(s: string)
    ensures DecodedText(s, 0) == ConcatMap(s, EscapeFileNameChar)
    ensures DecodedText(s, 5) == s
    decreases |s|
  {
    if s != [] {
      DecodedTextEnds(s[1..]);
    }
  }

  /** The encoder escapes each character on its own. */
  lemma EncodeSdpFileNameIsPerChar(s: string)
    ensures EncodeSdpFileName(s) == ConcatMap(s, EscapeFileNameChar)
  {
    var e1 := ReplaceAll(s, "%", "%25", false);
    assert e1 == EncodedText(s, 1) by { EncodedTextEnds(s); EncodeStage(s, 0); }
    var e2 := ReplaceAll(e1, "\0", "%00", false);
    assert e2 == EncodedText(s, 2) by { EncodeStage(s, 1); }
    var e3 := ReplaceAll(e2, "\n", "%0A", false);
    assert e3 == EncodedText(s, 3) by { EncodeStage(s, 2); }
    var e4 := ReplaceAll(e3, "\r", "%0D", false);
    assert e4 == EncodedText(s, 4) by { EncodeStage(s, 3); }
    var e5 := ReplaceAll(e4, "\"", "%22", false);
    assert e5 == EncodedText(s, 5) by { EncodeStage(s, 4); }
    EncodedTextEnds(s);
  }

  /** A piece of encoded text as the decoder sees it: a character other than `%`, or `%` and two more that are not `%`. */
  predicate Token(t: string)
  {
    (|t| == 1 && t[0] != '%') || (|t| == 3 && t[0] == '%' && t[1] != '%' && t[2] != '%')
  }

  lemma NotPercentStart(s: string, pat: string, rep: string, ci: bool)
    requires |s| > 0 && s[0] != '%' && |pat| > 0 && pat[0] == '%'
    ensures ReplaceAll(s, pat, rep, ci) == [s[0]] + ReplaceAll(s[1..], pat, rep, ci)
  {
    if |pat| <= |s| {
      assert s[..|pat|][0] == s[0];
      if ci {
        assert ToLower(s[..|pat|])[0] == LowerChar(s[0]);
        assert ToLower(pat)[0] == '%';
      }
    }
  }

  /** Replacing a `%`-led three-character pattern over a token followed by more text works token by token. */
  lemma ReplaceOverToken(t: string, rest: string, pat: string, rep: string, ci: bool)
    requires Token(t) && |pat| == 3 && pat[0] == '%'
    ensures ReplaceAll(t + rest, pat, rep, ci)
      == (if MatchesAt0(t, pat, ci) then rep else t) + ReplaceAll(rest, pat, rep, ci)
  {
    var s := t + rest;
    if |t| == 1 {
      NotPercentStart(s, pat, rep, ci);
      assert s[1..] == rest;
      assert !MatchesAt0(t, pat, ci);
    } else {
      assert s[..3] == t;
      if !MatchesAt0(t, pat, ci) {
        assert !MatchesAt0(s, pat, ci);
        NotPercentStart(s[1..], pat, rep, ci);
        NotPercentStart(s[2..], pat, rep, ci);
        assert s[1..][1..] == s[2..];
        assert s[2..][1..] == rest;
        assert t == [s[0], s[1], s[2]];
      } else {
        assert MatchesAt0(s, pat, ci);
        assert s[3..] == rest;
      }
    }
  }

  /** Decoder stage `k` (case-insensitive for LF and CR) restores its character and nothing else. */
  lemma {:induction false} DecodeStage(s: string, k: nat)
    requires k < 5
    ensures var d := DecodeStageChar(k);
      ReplaceAll(DecodedText(s, k), EscapeFileNameChar(d), [d], k == 1 || k == 2) == DecodedText(s, k + 1)
    decreases |s|
  {
    var d, ci := DecodeStageChar(k), k == 1 || k == 2;
    var pat := EscapeFileNameChar(d);
    if s != [] {
      var c := s[0];
      var head := DecodedSoFar(c, k);
      assert DecodedText(s, k) == head + DecodedText(s[1..], k);
      assert Token(head);
      ReplaceOverToken(head, DecodedText(s[1..], k), pat, [d], ci);
      DecodeStage(s[1..], k);
      if DecodedBy(c, k) || !Escaped(c) {
        assert |head| == 1;
      } else {
        assert head == EscapeFileNameChar(c);
        assert head[..3] == head;
        if c == d {
          assert MatchesAt0(head, pat, ci);
        } else {
          assert !MatchesAt0(head, pat, ci) by {
            if ci {
              assert ToLower(head)[1] != ToLower(pat)[1] || ToLower(head)[2] != ToLower(pat)[2];
            } else {
              assert head[1] != pat[1] || head[2] != pat[2];
            }
          }
        }
      }
    }
  }

  /** Decoding an encoded filename gives it back (RFC 5547 filename-string). */
  lemma SdpFileNameRoundTrip(s: string)
    ensures DecodeSdpFileName(EncodeSdpFileName(s)) == s
  {
    var e := EncodeSdpFileName(s);
    EncodeSdpFileNameIsPerChar(s);
    DecodedTextEnds(s);
    assert e == DecodedText(s, 0);
    var d1 := ReplaceAll(e, "%00", "\0", false);
    DecodeStageAt(s, 0, "%00", "\0", false);
    var d2 := ReplaceAll(d1, "%0A", "\n", true);
    DecodeStageAt(s, 1, "%0A", "\n", true);
    var d3 := ReplaceAll(d2, "%0D", "\r", true);
    DecodeStageAt(s, 2, "%0D", "\r", true);
    var d4 := ReplaceAll(d3, "%22", "\"", false);
    DecodeStageAt(s, 3, "%22", "\"", false);
    var d5 := ReplaceAll(d4, "%25", "%", false);
    DecodeStageAt(s, 4, "%25", "%", false);
    assert d5 == DecodedText(s, 5);
  }

  /** One decoder stage, with its pattern and replacement written out. */
  lemma DecodeStageAt(s: string, k: nat, pat: string, d: string, ci: bool)
    requires k < 5 && d == [DecodeStageChar(k)] && pat == EscapeFileNameChar(DecodeStageChar(k))
    requires ci == (k == 1 || k == 2)
    ensures ReplaceAll(DecodedText(s, k), pat, d, ci) == DecodedText(s, k + 1)
  {
    DecodeStage(s, k);
  }

  lemma {:induction false} ConcatMapEscapedFree(s: string, x: char)
    requires x == '"' || x == '\r' || x == '\n' || x == '\0'
    ensures x !in ConcatMap(s, EscapeFileNameChar)
    decreases |s|
  {
    if s != [] {
      ConcatMapEscapedFree(s[1..], x);
    }
  }

  /** An encoded filename holds no double quote, CR, LF or NUL. */
  lemma EncodedFileNameIsSafe(s: string)
    ensures var e := EncodeSdpFileName(s); '"' !in e && '\r' !in e && '\n' !in e && '\0' !in e
  {
    EncodeSdpFileNameIsPerChar(s);
    ConcatMapEscapedFree(s, '"');
    ConcatMapEscapedFree(s, '\r');
    ConcatMapEscapedFree(s, '\n');
    ConcatMapEscapedFree(s, '\0');
  }

  // ---------------------------------------------------------------------
  // RFC 822 quoted-string

  /** The characters `encodeQuotedString` escapes as a quoted-pair. */
  predicate NeedsQuoting(c: char)
  {
    c == '"' || c == '\r' || c == '\\'
  }

  function QuoteChar(c: char): string
  {
    if NeedsQuoting(c) then ['\\', c] else [c]
  }

  /** How many characters of `s` need quoting. */
  function QuotedCount(s: string): nat
  {
    if s == [] then 0 else (if NeedsQuoting(s[0]) then 1 else 0) + QuotedCount(s[1..])
  }

  /** `encodeQuotedString(str)`: every '"', CR and '\' is prefixed with a backslash. */
  method EncodeQuotedString(s: string) returns (r: string)
    ensures r == ConcatMap(s, QuoteChar)
    ensures |r| == |s| + QuotedCount(s)
  {
    r := "";
    var i := 0;
    while i < |s|
      invariant 0 <= i <= |s|
      invariant r == ConcatMap(s[..i], QuoteChar)
      invariant |r| == i + QuotedCount(s[..i])
    {
      ConcatMapAppend(s[..i], [s[i]], QuoteChar);
      QuotedCountAppend(s[..i], s[i]);
      assert s[..i + 1] == s[..i] + [s[i]];
      if NeedsQuoting(s[i]) {
        r := r + ['\\', s[i]];
      } else {
        r := r + [s[i]];
      }
      i := i + 1;
    }
    assert s[..|s|] == s;
  }

  lemma {:induction false} QuotedCountAppend(a: string, c: char)
    ensures QuotedCount(a + [c]) == QuotedCount(a) + (if NeedsQuoting(c) then 1 else 0)
    decreases |a|
  {
    if a != [] {
      assert (a + [c])[1..] == a[1..] + [c];
      QuotedCountAppend(a[1..], c);
    } else {
      assert [c][1..] == [];
    }
  }

  /** `s` without its first occurrence of `c`. */
  function RemoveFirst(s: string, c: char): string
  {
    if s == [] then []
    else if s[0] == c then s[1..]
    else [s[0]] + RemoveFirst(s[1..], c)
  }

  /** Removing the first `c` cuts out exactly the character at its first position `i`. */
  lemma {:induction false} RemoveFirstAt(s: string, c: char, i: nat)
    requires i < |s| && s[i] == c && c !in s[..i]
    ensures RemoveFirst(s, c) == s[..i] + s[i + 1..]
  {
    if i > 0 {
      assert s[0] in s[..i];
      assert s[1..][..i - 1] == s[1..i];
      assert c !in s[1..][..i - 1];
      RemoveFirstAt(s[1..], c, i - 1);
      assert s[..i] == [s[0]] + s[1..][..i - 1];
    }
  }

  lemma {:induction false} RemoveFirstAbsent(s: string, c: char)
    requires c !in s
    ensures RemoveFirst(s, c) == s
  {
    if s != [] {
      RemoveFirstAbsent(s[1..], c);
    }
  }

  /**
   * `decodeQuotedString(str)`. The `escaped` flag is set by the first
   * backslash and never cleared, so only that backslash is deleted and every
   * later character is kept verbatim.
   */
  method DecodeQuotedString(s: string) returns (r: string)
    ensures r == RemoveFirst(s, '\\')
  {
    r := "";
    var escaped := false;
    var i := 0;
    while i < |s|
      invariant 0 <= i <= |s|
      invariant RemoveFirst(s, '\\') == r + (if escaped then s[i..] else RemoveFirst(s[i..], '\\'))
    {
      ghost var rest := s[i..];
      assert rest == [s[i]] + s[i + 1..];
      if escaped {
        AppendAssoc3(r, [s[i]], s[i + 1..]);
        r := r + [s[i]];
      } else if s[i] == '\\' {
        assert RemoveFirst(rest, '\\') == s[i + 1..];
        escaped := true;
      } else {
        assert RemoveFirst(rest, '\\') == [s[i]] + RemoveFirst(s[i + 1..], '\\');
        AppendAssoc3(r, [s[i]], RemoveFirst(s[i + 1..], '\\'));
        r := r + [s[i]];
      }
      i := i + 1;
    }
  }

  lemma {:induction false} ConcatMapQuoteFree(s: string)
    requires QuotedCount(s) == 0
    ensures ConcatMap(s, QuoteChar) == s && '\\' !in s
    decreases |s|
  {
    if s != [] {
      ConcatMapQuoteFree(s[1..]);
    }
  }

  /**
   * `decodeQuotedString` undoes `encodeQuotedString` exactly when at most one
   * character needed quoting.
   */
  lemma {:induction false} QuotedRoundTrip(s: string)
    ensures RemoveFirst(ConcatMap(s, QuoteChar), '\\') == s <==> QuotedCount(s) <= 1
    decreases |s|
  {
    var e := ConcatMap(s, QuoteChar);
    QuotedLength(s);
    if s == [] {
    } else if NeedsQuoting(s[0]) {
      assert e == ['\\', s[0]] + ConcatMap(s[1..], QuoteChar);
      assert RemoveFirst(e, '\\') == [s[0]] + ConcatMap(s[1..], QuoteChar);
      if QuotedCount(s[1..]) == 0 {
        ConcatMapQuoteFree(s[1..]);
      }
      assert [s[0]] + s[1..] == s;
    } else {
      assert e == [s[0]] + ConcatMap(s[1..], QuoteChar);
      assert RemoveFirst(e, '\\') == [s[0]] + RemoveFirst(ConcatMap(s[1..], QuoteChar), '\\');
      QuotedRoundTrip(s[1..]);
      assert [s[0]] + s[1..] == s;
    }
  }

  lemma {:induction false} QuotedLength(s: string)
    ensures |ConcatMap(s, QuoteChar)| == |s| + QuotedCount(s)
    ensures QuotedCount(s) > 0 ==> '\\' in ConcatMap(s, QuoteChar)
    decreases |s|
  {
    if s != [] {
      QuotedLength(s[1..]);
      var e := ConcatMap(s, QuoteChar);
      assert e == QuoteChar(s[0]) + ConcatMap(s[1..], QuoteChar);
      if QuotedCount(s[1..]) > 0 {
        assert '\\' in ConcatMap(s[1..], QuoteChar);
        var k :| 0 <= k < |ConcatMap(s[1..], QuoteChar)| && ConcatMap(s[1..], QuoteChar)[k] == '\\';
        assert e[|QuoteChar(s[0])| + k] == '\\';
      }
      if NeedsQuoting(s[0]) {
        assert e[0] == '\\';
      }
    }
  }
}
