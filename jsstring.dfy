/**
 * The JavaScript string operations the library relies on, with the exact
 * edge-case behaviour of the ECMAScript built-ins: `indexOf` with a start
 * position, `substring` (which clamps and swaps its arguments), `substr`,
 * `charAt` (the empty string out of range), `split`, `join`, `trim`,
 * `parseInt(s, 10)` and the decimal rendering of an integer.
 *
 * Case mapping (`toLowerCase` / `toUpperCase`) is modelled for ASCII letters.
 */
module JsString {
  import opened Wrappers

  const CRLF: string := "\r\n"

  /** The characters that `\s` and `String.prototype.trim` treat as white space. */
  predicate IsSpace(c: char)
  {
    c == ' ' || c == '\t' || c == '\n' || c == '\U{B}' || c == '\U{C}' || c == '\r'
    || c == '\U{A0}' || c == '\U{1680}' || ('\U{2000}' <= c <= '\U{200A}')
    || c == '\U{2028}' || c == '\U{2029}' || c == '\U{202F}' || c == '\U{205F}'
    || c == '\U{3000}' || c == '\U{FEFF}'
  }

  // ---------------------------------------------------------------------
  // trim

  function TrimStart(s: string): (r: string)
    ensures |r| <= |s|
    ensures |r| > 0 ==> !IsSpace(r[0])
  {
    if |s| > 0 && IsSpace(s[0]) then TrimStart(s[1..]) else s
  }

  function TrimEnd(s: string): (r: string)
    ensures |r| <= |s|
    ensures |r| > 0 ==> !IsSpace(r[|r| - 1])
  {
    if |s| > 0 && IsSpace(s[|s| - 1]) then TrimEnd(s[..|s| - 1]) else s
  }

  /** `s.trim()`: `s` without its leading and trailing white space. */
  function Trim(s: string): (r: string)
    ensures |r| <= |s|
    ensures |r| > 0 ==> !IsSpace(r[0]) && !IsSpace(r[|r| - 1])
  {
    TrimEndPrefix(TrimStart(s));
    TrimEnd(TrimStart(s))
  }

  /** What `TrimEnd` keeps is a prefix of its argument. */
  lemma {:induction false} TrimEndPrefix(s: string)
    ensures TrimEnd(s) == s[..|TrimEnd(s)|]
    decreases |s|
  {
    if |s| > 0 && IsSpace(s[|s| - 1]) {
      TrimEndPrefix(s[..|s| - 1]);
    }
  }

  /** A string without leading or trailing white space is its own trim. */
  predicate Trimmed(s: string)
  {
    |s| == 0 || (!IsSpace(s[0]) && !IsSpace(s[|s| - 1]))
  }

  lemma TrimOfTrimmed(s: string)
    requires Trimmed(s)
    ensures Trim(s) == s
  {
  }

  lemma TrimIdempotent(s: string)
    ensures Trim(Trim(s)) == Trim(s)
  {
    TrimOfTrimmed(Trim(s));
  }

  // ---------------------------------------------------------------------
  // searching and slicing

  /** `pat` occurs in `s` at position `k`. */
  predicate OccursAt(s: string, pat: string, k: int)
  {
    0 <= k && k + |pat| <= |s| && s[k..k + |pat|] == pat
  }

  /** `s.indexOf(pat, from)` for a non-empty `pat`: the first position at or after `from` where `pat` occurs, or -1. */
  function IndexOf(s: string, pat: string, from: nat): (r: int)
    requires |pat| > 0
    ensures r == -1 || (from <= r && OccursAt(s, pat, r))
    decreases |s| - from
  {
    if from + |pat| > |s| then -1
    else if s[from..from + |pat|] == pat then from
    else IndexOf(s, pat, from + 1)
  }

  /** What `indexOf` skips: no occurrence before the answer, and none at all after `from` when the answer is -1. */
  lemma {:induction false} IndexOfFirst(s: string, pat: string, from: nat)
    requires |pat| > 0
    ensures var r := IndexOf(s, pat, from);
      && (r == -1 ==> forall k :: from <= k ==> !OccursAt(s, pat, k))
      && (r != -1 ==> forall k :: from <= k < r ==> !OccursAt(s, pat, k))
    decreases |s| - from
  {
    if from + |pat| <= |s| && s[from..from + |pat|] != pat {
      IndexOfFirst(s, pat, from + 1);
    }
  }

  /** No occurrence at or after `from` means `indexOf` answers -1. */
  lemma {:induction false} IndexOfNone(s: string, pat: string, from: nat)
    requires |pat| > 0 && forall k :: from <= k ==> !OccursAt(s, pat, k)
    ensures IndexOf(s, pat, from) == -1
    decreases |s| - from
  {
    if from + |pat| <= |s| {
      assert !OccursAt(s, pat, from);
      IndexOfNone(s, pat, from + 1);
    }
  }

  /** An occurrence at `at` with none between `from` and it is what `indexOf` finds. */
  lemma {:induction false} IndexOfAt(s: string, pat: string, from: nat, at: nat)
    requires |pat| > 0 && from <= at && OccursAt(s, pat, at)
    requires forall k :: from <= k < at ==> !OccursAt(s, pat, k)
    ensures IndexOf(s, pat, from) == at
    decreases at - from
  {
    if from < at {
      assert !OccursAt(s, pat, from);
      IndexOfAt(s, pat, from + 1, at);
    }
  }

  /** `s.indexOf(pat) !== -1` */
  predicate Contains(s: string, pat: string)
    requires |pat| > 0
  {
    IndexOf(s, pat, 0) != -1
  }

  /** The index of the first `c` at or after `from` is `at` when nothing before it is `c`. */
  lemma {:induction false} IndexOfChar(s: string, c: char, from: nat, at: nat)
    requires from <= at < |s| && s[at] == c
    requires forall k :: from <= k < at ==> s[k] != c
    ensures IndexOf(s, [c], from) == at
    decreases at - from
  {
    if from < at {
      assert s[from..from + 1] == [s[from]];
      IndexOfChar(s, c, from + 1, at);
    } else {
      assert s[from..from + 1] == [c];
    }
  }

  /** No `c` at or after `from` means `indexOf` answers -1. */
  lemma {:induction false} IndexOfCharAbsent(s: string, c: char, from: nat)
    requires forall k :: from <= k < |s| ==> s[k] != c
    ensures IndexOf(s, [c], from) == -1
    decreases |s| - from
  {
    if from < |s| {
      assert s[from..from + 1] == [s[from]];
      IndexOfCharAbsent(s, c, from + 1);
    }
  }

  /** Searching the end of a string after a prefix is searching the end itself, shifted by the prefix. */
  lemma {:induction false} IndexOfShift(x: string, y: string, pat: string, from: nat)
    requires |pat| > 0
    ensures IndexOf(x + y, pat, |x| + from) == if IndexOf(y, pat, from) == -1 then -1 else |x| + IndexOf(y, pat, from)
    decreases |y| - from
  {
    if from + |pat| <= |y| {
      assert (x + y)[|x| + from..|x| + from + |pat|] == y[from..from + |pat|];
      if y[from..from + |pat|] != pat {
        IndexOfShift(x, y, pat, from + 1);
      }
    }
  }

  /** A pattern whose first character does not occur in `a` is found first right after `a`. */
  lemma FirstOf(a: string, pat: string, b: string)
    requires |pat| > 0 && pat[0] !in a
    ensures IndexOf(a + pat + b, pat, 0) == |a|
  {
    var s := a + pat + b;
    assert s[|a|..|a| + |pat|] == pat;
    assert OccursAt(s, pat, |a|);
    forall k | 0 <= k < |a|
      ensures !OccursAt(s, pat, k)
    {
      assert s[k] == a[k];
    }
    IndexOfAt(s, pat, 0, |a|);
  }

  function ClampIndex(i: int, n: nat): nat
  {
    if i < 0 then 0 else if i > n then n else i
  }

  /** A bound of `Blob.slice`: a negative bound counts back from the end; both are clamped to the blob. */
  function SliceBound(i: int, n: nat): (r: nat)
    ensures r <= n
    ensures 0 <= i <= n ==> r == i
  {
    if i < 0 then (if n + i < 0 then 0 else n + i) else if i > n then n else i
  }

  /** `blob.slice(from, to)`. */
  function BlobSlice(b: string, from: int, to: int): (r: string)
    ensures 0 <= from <= to <= |b| ==> r == b[from..to]
  {
    var x, y := SliceBound(from, |b|), SliceBound(to, |b|);
    if x < y then b[x..y] else ""
  }

  /** `s.substring(a, b)`: both ends clamped to the string, swapped when `a > b`. */
  function Substring(s: string, a: int, b: int): (r: string)
    ensures |r| <= |s|
  {
    var lo, hi := ClampIndex(a, |s|), ClampIndex(b, |s|);
    if lo <= hi then s[lo..hi] else s[hi..lo]
  }

  /** Within the string and in order, `substring` is the slice. */
  lemma SubstringSlice(s: string, a: int, b: int)
    requires 0 <= a <= b <= |s|
    ensures Substring(s, a, b) == s[a..b]
  {
  }

  /** Within the string and reversed, `substring` is the slice between the ends taken in order. */
  lemma SubstringSwapped(s: string, a: int, b: int)
    requires 0 <= b <= a <= |s|
    ensures Substring(s, a, b) == s[b..a]
  {
  }

  /** `s.substr(start, len)` for a non-negative start. */
  function Substr(s: string, start: nat, len: nat): (r: string)
    ensures |r| <= len
  {
    if start >= |s| then "" else if start + len >= |s| then s[start..] else s[start..start + len]
  }

  /** `s.charAt(i)`: a one-character string, or the empty string out of range. */
  function CharAt(s: string, i: int): (r: string)
    ensures |r| <= 1
    ensures |r| == 1 <==> 0 <= i < |s|
  {
    if 0 <= i < |s| then [s[i]] else ""
  }

  /** `s.slice(n)` for a non-negative `n`. */
  function SliceFrom(s: string, n: nat): string
  {
    if n >= |s| then "" else s[n..]
  }

  function StartsWith(s: string, prefix: string): bool
  {
    |prefix| <= |s| && s[..|prefix|] == prefix
  }

  // ---------------------------------------------------------------------
  // split and join

  /** `s.split(sep)` for a non-empty separator. */
  function Split(s: string, sep: string): (parts: seq<string>)
    requires |sep| > 0
    ensures |parts| >= 1
    decreases |s|
  {
    var i := IndexOf(s, sep, 0);
    if i == -1 then [s] else [s[..i]] + Split(s[i + |sep|..], sep)
  }

  /** `parts.join(sep)` */
  function Join(parts: seq<string>, sep: string): string
  {
    if |parts| == 0 then ""
    else if |parts| == 1 then parts[0]
    else parts[0] + sep + Join(parts[1..], sep)
  }

  /** Splitting and joining again with the same separator gives back the string. */
  lemma {:induction false} JoinSplit(s: string, sep: string)
    requires |sep| > 0
    ensures Join(Split(s, sep), sep) == s
    decreases |s|
  {
    var i := IndexOf(s, sep, 0);
    if i != -1 {
      var first, rest := s[..i], s[i + |sep|..];
      assert Split(s, sep) == [first] + Split(rest, sep);
      JoinSplit(rest, sep);
      JoinCons(first, sep, Split(rest, sep));
      CutAt(s, sep, i);
    }
  }

  lemma JoinCons(a: string, sep: string, parts: seq<string>)
    requires |parts| >= 1
    ensures Join([a] + parts, sep) == a + sep + Join(parts, sep)
  {
    assert ([a] + parts)[1..] == parts;
  }

  /** A string is the text before an occurrence, the occurrence and the text after it. */
  lemma CutAt(s: string, pat: string, i: int)
    requires OccursAt(s, pat, i)
    ensures s == s[..i] + pat + s[i + |pat|..]
  {
    assert s == s[..i] + s[i..i + |pat|] + s[i + |pat|..];
  }

  predicate Free(parts: seq<string>, c: char)
  {
    forall i :: 0 <= i < |parts| ==> c !in parts[i]
  }

  /** Joining pieces that do not contain `c` with `c` and splitting on `c` gives back the pieces. */
  lemma {:induction false} SplitJoin(parts: seq<string>, c: char)
    requires |parts| > 0 && Free(parts, c)
    ensures Split(Join(parts, [c]), [c]) == parts
    decreases |parts|
  {
    var s := Join(parts, [c]);
    if |parts| == 1 {
      IndexOfCharAbsent(s, c, 0);
    } else {
      var rest := Join(parts[1..], [c]);
      assert s == parts[0] + [c] + rest;
      IndexOfChar(s, c, 0, |parts[0]|);
      assert s[|parts[0]| + 1..] == rest;
      assert s[..|parts[0]|] == parts[0];
      SplitJoin(parts[1..], c);
      assert [parts[0]] + parts[1..] == parts;
    }
  }

  /** Splitting on `c` cuts at the first `c`. */
  lemma SplitFirst(a: string, c: char, b: string)
    requires c !in a
    ensures Split(a + [c] + b, [c]) == [a] + Split(b, [c])
  {
    var s := a + [c] + b;
    IndexOfChar(s, c, 0, |a|);
    assert s[..|a|] == a && s[|a| + 1..] == b;
  }

  /** Splitting on CRLF cuts at the first CRLF when the text before it holds no CR. */
  lemma SplitCrlfFirst(a: string, b: string)
    requires '\r' !in a
    ensures Split(a + CRLF + b, CRLF) == [a] + Split(b, CRLF)
  {
    var s := a + CRLF + b;
    FirstOf(a, CRLF, b);
    assert s[..|a|] == a && s[|a| + 2..] == b;
  }

  /** A string without CR has no CRLF to split at. */
  lemma SplitCrlfAbsent(s: string)
    requires '\r' !in s
    ensures Split(s, CRLF) == [s]
  {
    forall k | 0 <= k
      ensures !OccursAt(s, CRLF, k)
    {
      if k + 2 <= |s| {
        assert s[k..k + 2][0] == s[k];
      }
    }
    IndexOfNone(s, CRLF, 0);
  }

  /** Lines without CR, joined by CRLF and split at CRLF again, are the same lines. */
  lemma {:induction false} SplitJoinCrlf(lines: seq<string>)
    requires |lines| > 0 && Free(lines, '\r')
    ensures Split(Join(lines, CRLF), CRLF) == lines
    decreases |lines|
  {
    if |lines| == 1 {
      SplitCrlfAbsent(lines[0]);
    } else {
      JoinCons(lines[0], CRLF, lines[1..]);
      assert [lines[0]] + lines[1..] == lines;
      SplitCrlfFirst(lines[0], Join(lines[1..], CRLF));
      SplitJoinCrlf(lines[1..]);
    }
  }

  /** A string without `c` splits on `c` into itself alone. */
  lemma SplitAbsent(s: string, c: char)
    requires c !in s
    ensures Split(s, [c]) == [s]
  {
    IndexOfCharAbsent(s, c, 0);
  }

  // ---------------------------------------------------------------------
  // case mapping (ASCII)

  function LowerChar(c: char): char
  {
    if 'A' <= c <= 'Z' then (c as int + 32) as char else c
  }

  function UpperChar(c: char): char
  {
    if 'a' <= c <= 'z' then (c as int - 32) as char else c
  }

  /** `s.toLowerCase()` */
  function ToLower(s: string): (r: string)
    ensures |r| == |s| && forall i :: 0 <= i < |s| ==> r[i] == LowerChar(s[i])
  {
    if s == [] then [] else [LowerChar(s[0])] + ToLower(s[1..])
  }

  lemma ToLowerAppend(a: string, b: string)
    ensures ToLower(a + b) == ToLower(a) + ToLower(b)
  {
  }

  // ---------------------------------------------------------------------
  // numbers

  predicate IsDigit(c: char)
  {
    '0' <= c <= '9'
  }

  /** How many decimal digits `s` starts with. */
  function DigitRun(s: string): (n: nat)
    ensures n <= |s|
    ensures forall i :: 0 <= i < n ==> IsDigit(s[i])
    ensures n < |s| ==> !IsDigit(s[n])
  {
    if |s| > 0 && IsDigit(s[0]) then 1 + DigitRun(s[1..]) else 0
  }

  /** The value of a run of decimal digits. */
  function DigitsValue(d: string): nat
  {
    if d == [] then 0 else 10 * DigitsValue(d[..|d| - 1]) + Digit(d[|d| - 1])
  }

  function Digit(c: char): nat
  {
    if IsDigit(c) then (c as int) - ('0' as int) else 0
  }

  /**
   * `parseInt(s, 10)`: leading white space is skipped, one sign is read, then
   * the longest run of decimal digits; `None` is `NaN` (no digits at all).
   */
  function ParseInt(s: string): (r: Option<int>)
    ensures r.None? <==> DigitRun(Unsigned(TrimStart(s))) == 0
  {
    var u := Unsigned(TrimStart(s));
    var n := DigitRun(u);
    if n == 0 then None
    else
      var v: int := DigitsValue(u[..n]);
      Some(if Negative(TrimStart(s)) then -v else v)
  }

  predicate Negative(t: string)
  {
    |t| > 0 && t[0] == '-'
  }

  function Unsigned(t: string): string
  {
    if |t| > 0 && (t[0] == '-' || t[0] == '+') then t[1..] else t
  }

  function DigitChar(d: nat): char
    requires d < 10
  {
    ('0' as int + d) as char
  }

  /** The decimal rendering of a natural number, without leading zeros. */
  function NatToString(n: nat): (s: string)
    ensures |s| > 0 && forall i :: 0 <= i < |s| ==> IsDigit(s[i])
  {
    if n < 10 then [DigitChar(n)] else NatToString(n / 10) + [DigitChar(n % 10)]
  }

  /** `String(n)` for an integer `n`. */
  function IntToString(n: int): string
  {
    if n < 0 then "-" + NatToString(-n) else NatToString(n)
  }

  lemma {:induction false} NatToStringValue(n: nat)
    ensures DigitsValue(NatToString(n)) == n
  {
    var s := NatToString(n);
    if n >= 10 {
      NatToStringValue(n / 10);
      assert s[..|s| - 1] == NatToString(n / 10);
    }
  }

  lemma {:induction false} DigitRunAll(s: string)
    requires forall i :: 0 <= i < |s| ==> IsDigit(s[i])
    ensures DigitRun(s) == |s|
  {
    if |s| > 0 {
      DigitRunAll(s[1..]);
    }
  }

  /** `parseInt(String(n), 10) === n` for every integer. */
  lemma ParseIntToString(n: int)
    ensures ParseInt(IntToString(n)) == Some(n)
  {
    var s := IntToString(n);
    var d := NatToString(if n < 0 then -n else n);
    assert TrimStart(s) == s;
    assert Unsigned(s) == d;
    DigitRunAll(d);
    assert d[..|d|] == d;
    NatToStringValue(if n < 0 then -n else n);
  }

  /** `String(n)` is a '-' for a negative number, then decimal digits. */
  lemma IntToStringShape(n: int)
    ensures var s := IntToString(n);
      |s| > 0 && IsDigit(s[|s| - 1]) && (s[0] == '-' <==> n < 0)
      && forall i :: 0 <= i < |s| ==> IsDigit(s[i]) || (i == 0 && s[i] == '-')
  {
  }

  lemma NatToStringNoSpace(n: nat)
    ensures forall i :: 0 <= i < |NatToString(n)| ==> !IsSpace(NatToString(n)[i]) && NatToString(n)[i] != '-'
  {
  }
}
