/**
 * Reassembly of one incoming chunked message (src/ChunkReceiver.js).
 *
 * A receiver holds the contiguous prefix of the message received so far,
 * split into a written-out blob and a staging buffer of chunks not yet
 * written, and it holds the chunks that arrived ahead of a gap, keyed by the
 * offset of their first byte. Byte offsets are 1-based, as in a Byte-Range
 * header (RFC 4975 section 7.1).
 *
 * The receiver's behaviour is specified on values (`Receiver`, `Process`);
 * the class `ChunkReceiver` updates its fields in place, as the source does,
 * and its methods are proved to follow that specification.
 */
module ChunkReceiving {
  import opened Wrappers
  import opened Message
  import opened JsString

  /**
   * The octets a chunk contributes: its body's bytes. A chunk without a body
   * is wrapped as `new Blob([null])`, which holds the four characters "null".
   */
  function ChunkBytes(chunk: Msg): string
  {
    match chunk.body
    case None => "null"
    case Some(b) => b.Octets()
  }

  /** The bytes of a list of parts written out one after another (`new Blob(parts)`). */
  function Flatten(parts: seq<string>): string
  {
    if parts == [] then "" else Flatten(parts[..|parts| - 1]) + parts[|parts| - 1]
  }

  lemma ConcatAssoc(a: string, b: string, c: string)
    ensures a + (b + c) == (a + b) + c
  {
  }

  lemma FlattenSnoc(parts: seq<string>, x: string)
    ensures Flatten(parts + [x]) == Flatten(parts) + x
  {
    assert (parts + [x])[..|parts|] == parts;
  }

  lemma {:induction false} FlattenCons(x: string, parts: seq<string>)
    ensures Flatten([x] + parts) == x + Flatten(parts)
    decreases |parts|
  {
    if parts == [] {
      assert [x] + parts == [] + [x];
      FlattenSnoc([], x);
    } else {
      var init, last := parts[..|parts| - 1], parts[|parts| - 1];
      assert parts == init + [last];
      assert [x] + parts == ([x] + init) + [last];
      calc {
        Flatten([x] + parts);
        { FlattenSnoc([x] + init, last); }
        Flatten([x] + init) + last;
        { FlattenCons(x, init); }
        (x + Flatten(init)) + last;
        { ConcatAssoc(x, Flatten(init), last); }
        x + (Flatten(init) + last);
        { FlattenSnoc(init, last); }
        x + Flatten(parts);
      }
    }
  }

  /** The fields of a receiver. `totalBytes` is -1 while the size is unknown. */
  datatype Receiver = Receiver(
    messageId: Option<string>,
    bufferSize: int,
    isFile: bool,
    totalBytes: int,
    blob: string,
    size: int,
    bufferedChunks: seq<string>,
    bufferedBytes: int,
    receivedBytes: int,
    incontiguousChunks: map<int, string>,
    aborted: bool,
    remoteAbort: bool,
    lastReceive: Option<int>)

  /** The offset at which the next in-order chunk starts (`nextStart`). */
  function NextStart(r: Receiver): int
  {
    r.size + r.bufferedBytes + 1
  }

  /** Everything received contiguously from the first byte: the blob, then the staged chunks. */
  function Contents(r: Receiver): string
  {
    r.blob + Flatten(r.bufferedChunks)
  }

  /** The cached sizes agree with the bytes they count. */
  predicate Valid(r: Receiver)
  {
    r.size == |r.blob| && r.bufferedBytes == |Flatten(r.bufferedChunks)|
  }

  /** `c` occupies the bytes of `s` that start at the 1-based offset `k`. */
  predicate Lands(s: string, k: int, c: string)
  {
    1 <= k && k - 1 + |c| <= |s| && s[k - 1..k - 1 + |c|] == c
  }

  /** A first chunk marks a file transfer when its disposition is 'attachment' or 'render'. */
  function IsFile(d: Option<Disposition>): bool
  {
    d.Some? && (d.value.kind == "attachment" || d.value.kind == "render")
  }

  /** The receiver the constructor builds before it processes the first chunk. */
  function Fresh(first: Msg, bufferSize: int): (r: Receiver)
    requires first.byteRange.Some?
    ensures Valid(r) && Contents(r) == "" && r.incontiguousChunks == map[]
    ensures r.totalBytes == first.byteRange.value.total && r.messageId == first.messageId
  {
    Receiver(first.messageId, bufferSize, IsFile(first.disposition), first.byteRange.value.total,
      "", 0, [], 0, 0, map[], false, false, None)
  }

  /** `writeToBlob`: the staged chunks are appended to the blob and the buffer emptied. */
  function Flushed(r: Receiver): (f: Receiver)
    ensures f.bufferedChunks == [] && f.bufferedBytes == 0 && f.size == |f.blob|
    ensures f.incontiguousChunks == r.incontiguousChunks && f.totalBytes == r.totalBytes
    ensures Valid(r) ==> Valid(f) && Contents(f) == Contents(r) && NextStart(f) == NextStart(r)
  {
    var b := (if r.size > 0 then r.blob else "") + Flatten(r.bufferedChunks);
    r.(blob := b, size := |b|, bufferedChunks := [], bufferedBytes := 0)
  }

  /**
   * The drain loop over the staged chunks, their byte count and the
   * out-of-order map: while the map holds a chunk at the expected offset
   * `next`, that chunk moves to the staging buffer and the offset advances.
   */
  function Drain(chunks: seq<string>, bytes: int, ahead: map<int, string>, next: int)
    : (d: (seq<string>, int, map<int, string>, int))
    ensures d.2.Keys <= ahead.Keys && d.3 !in d.2
    decreases |ahead|
  {
    if ahead == map[] || next !in ahead then (chunks, bytes, ahead, next)
    else
      var c := ahead[next];
      Drain(chunks + [c], bytes + |c|, ahead - {next}, next + |c|)
  }

  /** The receiver after the drain loop, started at the expected offset `next`. */
  function Drained(r: Receiver, next: int): Receiver
  {
    var d := Drain(r.bufferedChunks, r.bufferedBytes, r.incontiguousChunks, next);
    r.(bufferedChunks := d.0, bufferedBytes := d.1, incontiguousChunks := d.2)
  }

  /**
   * A duplicate or overlapping chunk: the blob is rebuilt from the bytes before
   * the chunk, the chunk, and the bytes after it, so the last chunk received
   * for a range wins (RFC 4975 section 7.3.1).
   */
  function Overwrite(r: Receiver, start: int, body: string): Receiver
  {
    var b := (if start > 1 then BlobSlice(r.blob, 0, start - 1) else "") + body
             + (if start + |body| <= r.size then BlobSlice(r.blob, start + |body| - 1, |r.blob|) else "");
    r.(blob := b, size := |b|)
  }

  /** Lines 100-104: the expected chunk joins the staging buffer. */
  function Pushed(r: Receiver, body: string): (o: Receiver)
    ensures Valid(r) ==> Valid(o) && Contents(o) == Contents(r) + body && NextStart(o) == NextStart(r) + |body|
  {
    FlattenSnoc(r.bufferedChunks, body);
    r.(bufferedChunks := r.bufferedChunks + [body], bufferedBytes := r.bufferedBytes + |body|)
  }

  /** Lines 128-131: the staging buffer is written out once it reaches the threshold or completes the message. */
  function Settled(d: Receiver): (o: Receiver)
    ensures Valid(d) ==> Valid(o) && Contents(o) == Contents(d) && NextStart(o) == NextStart(d)
    ensures Valid(d) && |Contents(o)| == o.totalBytes ==> o.bufferedChunks == [] && o.blob == Contents(o)
    ensures o.bufferedChunks != [] ==> o.bufferedBytes < o.bufferSize
    ensures o.incontiguousChunks == d.incontiguousChunks && o.totalBytes == d.totalBytes
    ensures o.receivedBytes == d.receivedBytes && o.aborted == d.aborted
  {
    if d.bufferedBytes >= d.bufferSize || d.size + d.bufferedBytes == d.totalBytes then Flushed(d) else d
  }

  /** What an accepted chunk starting at `start` does, given the expected offset `next`. */
  function Place(r: Receiver, start: int, body: string, next: int): (o: Receiver)
    ensures o.totalBytes == r.totalBytes && o.receivedBytes == r.receivedBytes && o.lastReceive == r.lastReceive
    ensures o.aborted == r.aborted && o.remoteAbort == r.remoteAbort
    ensures o.messageId == r.messageId && o.bufferSize == r.bufferSize
  {
    if start == next then
      Settled(Drained(Pushed(r, body), next + |body|))
    else if start > next then
      r.(incontiguousChunks := r.incontiguousChunks[start := body])
    else
      Overwrite(Flushed(r), start, body)
  }

  /** Lines 72-86: an accepted chunk records the time and counts its bytes. */
  function Seen(r: Receiver, chunk: Msg, now: int): Receiver
  {
    r.(lastReceive := Some(now), receivedBytes := r.receivedBytes + |ChunkBytes(chunk)|)
  }

  /** Lines 88-93: an end chunk fixes the total size at its last byte. */
  function Ended(r: Receiver, chunk: Msg): Receiver
    requires chunk.byteRange.Some?
  {
    if chunk.flag == End then r.(totalBytes := chunk.byteRange.value.start + |ChunkBytes(chunk)| - 1) else r
  }

  /**
   * `processChunk(chunk)` at time `now`: the new receiver and the result,
   * false when the transfer should be aborted.
   */
  function Process(r: Receiver, chunk: Msg, now: int): (Receiver, bool)
    requires chunk.byteRange.Some?
  {
    if r.aborted || chunk.messageId != r.messageId then (r, false)
    else if chunk.flag == Abort then (Seen(r, chunk, now).(aborted := true, remoteAbort := true), false)
    else (Place(Ended(Seen(r, chunk, now), chunk), chunk.byteRange.value.start, ChunkBytes(chunk), NextStart(r)), true)
  }

  /** `new ChunkReceiver(firstChunk, bufferSize)`: a fresh receiver that has processed the first chunk. */
  function Start(first: Msg, bufferSize: int, now: int): Receiver
    requires first.byteRange.Some?
  {
    Process(Fresh(first, bufferSize), first, now).0
  }

  /** `isComplete()`: aborted, or the blob holds the whole message. */
  predicate Complete(r: Receiver)
  {
    r.aborted || r.size == r.totalBytes
  }

  // ---------------------------------------------------------------------
  // properties of the specification

  /** Bytes that land in a string land in every extension of it. */
  lemma LandsPrefix(s: string, t: string, k: int, c: string)
    requires Lands(s, k, c) && s <= t
    ensures Lands(t, k, c)
  {
    assert t[k - 1..k - 1 + |c|] == s[k - 1..k - 1 + |c|];
  }

  /** The bytes the drain takes from the map `ahead`, starting at the offset `next`. */
  function Run(ahead: map<int, string>, next: int): string
    decreases |ahead|
  {
    if next in ahead then ahead[next] + Run(ahead - {next}, next + |ahead[next]|) else ""
  }

  /** The chunks the drain leaves in the map `ahead`, starting at the offset `next`. */
  function Left(ahead: map<int, string>, next: int): map<int, string>
    decreases |ahead|
  {
    if next in ahead then Left(ahead - {next}, next + |ahead[next]|) else ahead
  }

  /** One step of the drain: the chunk at `next` moves to the staging buffer. */
  lemma DrainUnfold(chunks: seq<string>, bytes: int, ahead: map<int, string>, next: int)
    requires next in ahead
    ensures var c := ahead[next];
      Drain(chunks, bytes, ahead, next) == Drain(chunks + [c], bytes + |c|, ahead - {next}, next + |c|)
  {
    var empty: map<int, string> := map[];
    assert ahead != empty by { assert next !in empty; }
  }

  /**
   * The drain loop appends the bytes `Run` takes to the staged chunks, counts
   * them, leaves `Left` in the map and advances the expected offset past them.
   */
  lemma {:induction false} DrainRun(chunks: seq<string>, bytes: int, ahead: map<int, string>, next: int)
    ensures var d, t := Drain(chunks, bytes, ahead, next), Run(ahead, next);
      Flatten(d.0) == Flatten(chunks) + t && d.1 == bytes + |t| && d.2 == Left(ahead, next) && d.3 == next + |t|
    decreases |ahead|
  {
    if next in ahead {
      var c, rest := ahead[next], ahead - {next};
      assert Run(ahead, next) == c + Run(rest, next + |c|) && Left(ahead, next) == Left(rest, next + |c|);
      DrainUnfold(chunks, bytes, ahead, next);
      DrainRun(chunks + [c], bytes + |c|, rest, next + |c|);
      FlattenSnoc(chunks, c);
      ConcatAssoc(Flatten(chunks), c, Run(rest, next + |c|));
    }
  }

  /** The chunks left in the map are the ones that were there, and none is left at the new expected offset. */
  lemma {:induction false} RunLeaves(ahead: map<int, string>, next: int)
    ensures forall k :: k in Left(ahead, next) ==> k in ahead && Left(ahead, next)[k] == ahead[k]
    ensures next + |Run(ahead, next)| !in Left(ahead, next)
    decreases |ahead|
  {
    if next in ahead {
      var c := ahead[next];
      RunLeaves(ahead - {next}, next + |c|);
    }
  }

  /** Every chunk the drain takes lands, after the prefix `pre` it continues, at the offset it was keyed by. */
  lemma {:induction false} RunPlaces(pre: string, ahead: map<int, string>, next: int)
    requires next == |pre| + 1
    ensures forall k :: k in ahead && k !in Left(ahead, next) ==> Lands(pre + Run(ahead, next), k, ahead[k])
    decreases |ahead|
  {
    if next in ahead {
      var c := ahead[next];
      var rest := ahead - {next};
      var t := Run(rest, next + |c|);
      RunPlaces(pre + c, rest, next + |c|);
      ConcatAssoc(pre, c, t);
      assert Lands(pre + c, next, c) by { assert (pre + c)[|pre|..|pre| + |c|] == c; }
      LandsPrefix(pre + c, (pre + c) + t, next, c);
      TakenLand(ahead, next, Left(rest, next + |c|), (pre + c) + t);
    }
  }

  /** When every chunk in the map agrees with `p`, the drain extends a prefix of `p` to a prefix of `p`. */
  lemma {:induction false} RunConsistent(pre: string, ahead: map<int, string>, next: int, p: string)
    requires next == |pre| + 1 && pre <= p
    requires forall k :: k in ahead ==> Lands(p, k, ahead[k])
    ensures pre + Run(ahead, next) <= p
    decreases |ahead|
  {
    if next in ahead {
      var c := ahead[next];
      var rest := ahead - {next};
      ExtendPrefix(pre, c, p);
      RunConsistent(pre + c, rest, next + |c|, p);
      ConcatAssoc(pre, c, Run(rest, next + |c|));
    }
  }

  /** A chunk taken at `next` and the chunks taken after it all land in `after`. */
  lemma TakenLand(ahead: map<int, string>, next: int, left: map<int, string>, after: string)
    requires next in ahead && Lands(after, next, ahead[next])
    requires forall k :: k in ahead - {next} && k !in left ==> Lands(after, k, (ahead - {next})[k])
    ensures forall k :: k in ahead && k !in left ==> Lands(after, k, ahead[k])
  {
    forall k | k in ahead && k !in left
      ensures Lands(after, k, ahead[k])
    {
      if k != next {
        assert k in ahead - {next} && (ahead - {next})[k] == ahead[k];
      }
    }
  }

  /**
   * The received prefix agrees with the message `p`, and so does every chunk
   * waiting in the out-of-order map.
   */
  predicate Consistent(r: Receiver, p: string)
  {
    Valid(r) && Contents(r) <= p
    && forall k :: k in r.incontiguousChunks ==> Lands(p, k, r.incontiguousChunks[k])
  }

  /** A chunk that carries bytes of `p` at the offset its Byte-Range starts at. */
  predicate SliceOf(chunk: Msg, p: string)
  {
    chunk.byteRange.Some? && Lands(p, chunk.byteRange.value.start, ChunkBytes(chunk))
  }

  /** A prefix of `p` followed by the bytes of `p` that come next is a prefix of `p`. */
  lemma ExtendPrefix(pre: string, c: string, p: string)
    requires pre <= p && Lands(p, |pre| + 1, c)
    ensures pre + c <= p
  {
    assert pre + c == p[..|pre| + |c|];
  }

  /** The drain lemmas, stated on a receiver whose expected offset is `next`. */
  lemma DrainedFacts(r: Receiver, next: int)
    requires Valid(r) && next == NextStart(r)
    ensures var d := Drained(r, next);
      Valid(d) && Contents(d) == Contents(r) + Run(r.incontiguousChunks, next)
      && NextStart(d) !in d.incontiguousChunks
      && (forall k :: k in d.incontiguousChunks ==>
            k in r.incontiguousChunks && d.incontiguousChunks[k] == r.incontiguousChunks[k])
      && (forall k :: k in r.incontiguousChunks && k !in d.incontiguousChunks ==>
            Lands(Contents(d), k, r.incontiguousChunks[k]))
  {
    var m := r.incontiguousChunks;
    DrainedGrows(r, next);
    RunLeaves(m, next);
    RunPlaces(Contents(r), m, next);
  }

  /** The drained receiver in terms of `Run` and `Left`. */
  lemma DrainedGrows(r: Receiver, next: int)
    requires Valid(r) && next == NextStart(r)
    ensures var d, m := Drained(r, next), r.incontiguousChunks;
      Valid(d) && Contents(d) == Contents(r) + Run(m, next)
      && NextStart(d) == next + |Run(m, next)| && d.incontiguousChunks == Left(m, next)
  {
    var m, t := r.incontiguousChunks, Run(r.incontiguousChunks, next);
    var d := Drain(r.bufferedChunks, r.bufferedBytes, m, next);
    DrainRun(r.bufferedChunks, r.bufferedBytes, m, next);
    var o := Drained(r, next);
    assert o.blob == r.blob && o.size == r.size;
    assert o.bufferedChunks == d.0 && o.bufferedBytes == d.1 && o.incontiguousChunks == d.2;
    ConcatAssoc(r.blob, Flatten(r.bufferedChunks), t);
    assert Contents(o) == Contents(r) + t;
  }

  /**
   * What an in-order chunk `body` does to the receiver `e`, giving `o`: it
   * extends the received prefix; no chunk is left at the new expected offset;
   * chunks left in the map are untouched and each chunk taken from it sits at
   * the offset it was keyed by; the staging buffer is written out once the
   * prefix reaches the total size, and never holds `bufferSize` bytes or more.
   */
  predicate InOrderOutcome(e: Receiver, body: string, o: Receiver)
  {
    Valid(o) && Contents(e) + body <= Contents(o) && NextStart(o) !in o.incontiguousChunks
    && (forall k :: k in o.incontiguousChunks ==>
          k in e.incontiguousChunks && o.incontiguousChunks[k] == e.incontiguousChunks[k])
    && (forall k :: k in e.incontiguousChunks && k !in o.incontiguousChunks ==>
          Lands(Contents(o), k, e.incontiguousChunks[k]))
    && (|Contents(o)| == o.totalBytes ==> o.bufferedChunks == [] && o.blob == Contents(o))
    && (o.bufferedChunks != [] ==> o.bufferedBytes < o.bufferSize)
    && o.totalBytes == e.totalBytes && o.receivedBytes == e.receivedBytes && o.aborted == e.aborted
  }

  lemma SettledInOrder(e: Receiver, body: string, pushed: Receiver, d: Receiver)
    requires Valid(d) && Contents(e) + body <= Contents(pushed) && Contents(pushed) <= Contents(d)
    requires NextStart(d) !in d.incontiguousChunks
    requires pushed.incontiguousChunks == e.incontiguousChunks
    requires forall k :: k in d.incontiguousChunks ==>
               k in e.incontiguousChunks && d.incontiguousChunks[k] == e.incontiguousChunks[k]
    requires forall k :: k in e.incontiguousChunks && k !in d.incontiguousChunks ==>
               Lands(Contents(d), k, e.incontiguousChunks[k])
    requires d.totalBytes == e.totalBytes && d.receivedBytes == e.receivedBytes && d.aborted == e.aborted
    ensures InOrderOutcome(e, body, Settled(d))
  {
  }

  lemma PlaceInOrder(e: Receiver, body: string, next: int)
    requires Valid(e) && next == NextStart(e)
    ensures InOrderOutcome(e, body, Place(e, next, body, next))
  {
    assert Place(e, next, body, next) == Settled(Drained(Pushed(e, body), next + |body|));
    var pushed := Pushed(e, body);
    assert Valid(pushed) && Contents(pushed) == Contents(e) + body && NextStart(pushed) == next + |body|;
    assert pushed.incontiguousChunks == e.incontiguousChunks && pushed.totalBytes == e.totalBytes;
    assert pushed.receivedBytes == e.receivedBytes && pushed.aborted == e.aborted;
    var d := Drained(pushed, next + |body|);
    DrainedFacts(pushed, next + |body|);
    var t := Run(pushed.incontiguousChunks, next + |body|);
    assert Contents(pushed) <= Contents(d) by {
      assert Contents(d) == Contents(pushed) + t;
      assert (Contents(pushed) + t)[..|Contents(pushed)|] == Contents(pushed);
    }
    assert d.totalBytes == e.totalBytes && d.receivedBytes == e.receivedBytes && d.aborted == e.aborted;
    SettledInOrder(e, body, pushed, d);
  }

  /**
   * A chunk that starts before the expected offset is written over the
   * received bytes: the bytes before it and the bytes after it are kept, and
   * the whole prefix is written out.
   */
  lemma PlaceOverwrite(e: Receiver, start: int, body: string)
    requires Valid(e) && 1 <= start < NextStart(e)
    ensures var c, o := Contents(e), Place(e, start, body, NextStart(e));
      var tail := if start - 1 + |body| < |c| then start - 1 + |body| else |c|;
      Valid(o) && o.bufferedChunks == [] && o.blob == c[..start - 1] + body + c[tail..]
      && o.incontiguousChunks == e.incontiguousChunks
      && o.totalBytes == e.totalBytes && o.receivedBytes == e.receivedBytes && o.aborted == e.aborted
  {
    var f := Flushed(e);
    var c := Contents(e);
    assert f.blob == c && f.size == |c|;
    assert BlobSlice(c, 0, start - 1) == c[..start - 1];
    if start + |body| <= |c| {
      assert BlobSlice(c, start + |body| - 1, |c|) == c[start - 1 + |body|..];
    }
  }

  /** A chunk of `p` rewritten over a prefix of `p` leaves a prefix of `p`. */
  lemma OverwriteConsistent(c: string, start: int, body: string, p: string)
    requires c <= p && 1 <= start <= |c| + 1 && Lands(p, start, body)
    ensures var tail := if start - 1 + |body| < |c| then start - 1 + |body| else |c|;
      c[..start - 1] + body + c[tail..] <= p
  {
    var tail := if start - 1 + |body| < |c| then start - 1 + |body| else |c|;
    var n := start - 1 + |body|;
    if n < |c| {
      assert c[..start - 1] + body + c[tail..] == p[..|c|];
    } else {
      assert c[..start - 1] + body + c[tail..] == p[..n];
    }
  }

  /** An in-order chunk of `p` keeps the receiver consistent with `p`. */
  lemma PlaceInOrderConsistent(e: Receiver, body: string, next: int, p: string)
    requires Consistent(e, p) && next == NextStart(e) && Lands(p, next, body)
    ensures Consistent(Place(e, next, body, next), p)
  {
    var pushed := Pushed(e, body);
    ExtendPrefix(Contents(e), body, p);
    assert Consistent(pushed, p);
    DrainedConsistent(pushed, next + |body|, p);
    var d := Drained(pushed, next + |body|);
    assert Settled(d).incontiguousChunks == d.incontiguousChunks;
  }

  /** The drain keeps a receiver consistent with `p`. */
  lemma DrainedConsistent(r: Receiver, next: int, p: string)
    requires Consistent(r, p) && next == NextStart(r)
    ensures Consistent(Drained(r, next), p)
  {
    DrainedFacts(r, next);
    RunConsistent(Contents(r), r.incontiguousChunks, next, p);
  }

  /** A chunk the receiver accepts: it is not aborted, the Message-ID matches and the flag is not '#'. */
  predicate Accepts(r: Receiver, chunk: Msg)
  {
    !r.aborted && chunk.messageId == r.messageId && chunk.flag != Abort
  }

  /**
   * Lines 61-98: a chunk for an aborted receiver or for another message
   * changes nothing; any other chunk records the time and counts its bytes,
   * duplicates and the abort chunk included; an end chunk fixes the total
   * size; an abort chunk aborts the receiver as a remote abort. The result
   * is true exactly for accepted chunks.
   */
  lemma ProcessOutcome(r: Receiver, chunk: Msg, now: int)
    requires chunk.byteRange.Some?
    ensures var out, start, body := Process(r, chunk, now), chunk.byteRange.value.start, ChunkBytes(chunk);
      var rejected := r.aborted || chunk.messageId != r.messageId;
      (out.1 <==> Accepts(r, chunk))
      && (rejected ==> out.0 == r)
      && (!rejected ==> out.0.receivedBytes == r.receivedBytes + |body| && out.0.lastReceive == Some(now))
      && (!rejected && chunk.flag == Abort ==>
            out.0.aborted && out.0.remoteAbort && Contents(out.0) == Contents(r)
            && out.0.incontiguousChunks == r.incontiguousChunks && out.0.totalBytes == r.totalBytes)
      && (!rejected && chunk.flag == End ==> out.0.totalBytes == start + |body| - 1)
      && (chunk.flag != End ==> out.0.totalBytes == r.totalBytes)
      && (Accepts(r, chunk) ==> !out.0.aborted && out.0.remoteAbort == r.remoteAbort)
  {
  }

  /**
   * A chunk starting beyond the expected offset is stored under its offset,
   * replacing any chunk stored there, and the received prefix is unchanged.
   */
  lemma ProcessAhead(r: Receiver, chunk: Msg, now: int)
    requires chunk.byteRange.Some? && Accepts(r, chunk) && chunk.byteRange.value.start > NextStart(r)
    ensures var o := Process(r, chunk, now).0;
      o.incontiguousChunks == r.incontiguousChunks[chunk.byteRange.value.start := ChunkBytes(chunk)]
      && o.blob == r.blob && o.size == r.size
      && o.bufferedChunks == r.bufferedChunks && o.bufferedBytes == r.bufferedBytes
  {
  }

  /** An in-order chunk, as described at `InOrderOutcome`. */
  lemma ProcessInOrder(r: Receiver, chunk: Msg, now: int)
    requires chunk.byteRange.Some? && Accepts(r, chunk) && Valid(r)
    requires chunk.byteRange.value.start == NextStart(r)
    ensures InOrderOutcome(Ended(Seen(r, chunk, now), chunk), ChunkBytes(chunk), Process(r, chunk, now).0)
    ensures Contents(r) + ChunkBytes(chunk) <= Contents(Process(r, chunk, now).0)
  {
    var e := Ended(Seen(r, chunk, now), chunk);
    assert Contents(e) == Contents(r) && Valid(e);
    PlaceInOrder(e, ChunkBytes(chunk), NextStart(r));
  }

  /**
   * A duplicate or overlapping chunk: the whole prefix is written out and the
   * chunk replaces the bytes it covers, keeping the bytes before and after
   * it, so the last chunk received for a range wins. A duplicate that lies
   * inside the received prefix leaves its length unchanged.
   */
  lemma ProcessOverwrite(r: Receiver, chunk: Msg, now: int)
    requires chunk.byteRange.Some? && Accepts(r, chunk) && Valid(r)
    requires 1 <= chunk.byteRange.value.start < NextStart(r)
    ensures var o, c, start, body := Process(r, chunk, now).0, Contents(r), chunk.byteRange.value.start, ChunkBytes(chunk);
      var tail := if start - 1 + |body| < |c| then start - 1 + |body| else |c|;
      Valid(o) && o.bufferedChunks == [] && o.blob == c[..start - 1] + body + c[tail..]
      && o.incontiguousChunks == r.incontiguousChunks
      && (start - 1 + |body| <= |c| ==> o.size == |c|)
  {
    var e := Ended(Seen(r, chunk, now), chunk);
    assert Contents(e) == Contents(r) && Valid(e);
    PlaceOverwrite(e, chunk.byteRange.value.start, ChunkBytes(chunk));
  }

  /**
   * Chunks of one message `p`, delivered in any order and any number of
   * times, never corrupt the reassembly: the received prefix stays a prefix
   * of `p`, and every chunk waiting in the map holds the bytes of `p` at its
   * offset.
   */
  lemma ProcessConsistent(r: Receiver, chunk: Msg, now: int, p: string)
    requires Consistent(r, p) && SliceOf(chunk, p)
    ensures Consistent(Process(r, chunk, now).0, p)
  {
    if Accepts(r, chunk) {
      var e := Ended(Seen(r, chunk, now), chunk);
      var start, body, next := chunk.byteRange.value.start, ChunkBytes(chunk), NextStart(r);
      assert Consistent(e, p);
      if start == next {
        PlaceInOrderConsistent(e, body, next, p);
      } else if start < next {
        PlaceOverwrite(e, start, body);
        OverwriteConsistent(Contents(e), start, body, p);
      }
    }
  }

  /** The first chunk's receiver, before that chunk, is consistent with any message. */
  lemma FreshConsistent(first: Msg, bufferSize: int, p: string)
    requires first.byteRange.Some?
    ensures Consistent(Fresh(first, bufferSize), p)
  {
  }

  /**
   * A complete receiver that was not aborted, consistent with `p` and
   * expecting `|p|` bytes, holds exactly `p` in its blob.
   */
  lemma CompleteHolds(r: Receiver, p: string)
    requires Consistent(r, p) && !r.aborted && Complete(r) && r.totalBytes == |p|
    ensures r.blob == p && Contents(r) == p
  {
    assert r.blob <= Contents(r);
  }

  /** A chunk of one four-byte message: its range starts at `start` and its body is `body`. */
  function SampleChunk(start: int, body: string, flag: string): Msg
  {
    IncomingRequest("xol1lmt9", "SEND").(
      messageId := Some("3560751376.r8igluab"),
      byteRange := Some(ByteRange(start, start + |body| - 1, 4)),
      body := Some(Text(body)),
      flag := flag)
  }

  const SampleId: Option<string> := Some("3560751376.r8igluab")

  /** The receiver of the sample message after each of its four chunks, in the order 1, 3, 2, 4. */
  const SampleAfter1 := Receiver(SampleId, 0, false, 4, "1", 1, [], 0, 1, map[], false, false, Some(0))
  const SampleAfter3 := Receiver(SampleId, 0, false, 4, "1", 1, [], 0, 2, map[3 := "3"], false, false, Some(1))
  const SampleAfter2 := Receiver(SampleId, 0, false, 4, "123", 3, [], 0, 3, map[], false, false, Some(2))
  const SampleAfter4 := Receiver(SampleId, 0, false, 4, "1234", 4, [], 0, 4, map[], false, false, Some(3))

  /**
   * Four one-byte chunks arriving as 1, 3, 2, 4 with a zero buffer threshold:
   * chunk 3 waits in the map until chunk 2 arrives, and the receiver ends
   * complete with four bytes received, a four-byte blob and an empty map.
   */
  lemma FourChunksOutOfOrder()
    ensures Start(SampleChunk(1, "1", Continued), 0, 0) == SampleAfter1
    ensures Process(SampleAfter1, SampleChunk(3, "3", Continued), 1) == (SampleAfter3, true)
    ensures Process(SampleAfter3, SampleChunk(2, "2", Continued), 2) == (SampleAfter2, true)
    ensures Process(SampleAfter2, SampleChunk(4, "4", End), 3) == (SampleAfter4, true)
    ensures !Complete(SampleAfter1) && !Complete(SampleAfter3) && !Complete(SampleAfter2)
    ensures Complete(SampleAfter4)
  {
    SampleFirst();
    SampleAhead();
    SampleFill();
    SampleLast();
  }

  lemma SampleFirst()
    ensures Start(SampleChunk(1, "1", Continued), 0, 0) == SampleAfter1
  {
    var c := SampleChunk(1, "1", Continued);
    var r0 := Fresh(c, 0);
    assert r0 == Receiver(SampleId, 0, false, 4, "", 0, [], 0, 0, map[], false, false, None);
    SampleAppend(r0, c, 0);
  }

  lemma SampleAhead()
    ensures Process(SampleAfter1, SampleChunk(3, "3", Continued), 1) == (SampleAfter3, true)
  {
  }

  lemma SampleFill()
    ensures Process(SampleAfter3, SampleChunk(2, "2", Continued), 2) == (SampleAfter2, true)
  {
    var c := SampleChunk(2, "2", Continued);
    var e := Receiver(SampleId, 0, false, 4, "1", 1, [], 0, 3, map[3 := "3"], false, false, Some(2));
    assert ChunkBytes(c) == "2";
    assert Ended(Seen(SampleAfter3, c, 2), c) == e;
    SampleFillPlace(e);
  }

  lemma SampleFillPlace(e: Receiver)
    requires e == Receiver(SampleId, 0, false, 4, "1", 1, [], 0, 3, map[3 := "3"], false, false, Some(2))
    ensures Place(e, 2, "2", 2) == SampleAfter2
  {
    var p := Receiver(SampleId, 0, false, 4, "1", 1, ["2"], 1, 3, map[3 := "3"], false, false, Some(2));
    assert Pushed(e, "2") == p;
    SampleDrain();
    var d := Receiver(SampleId, 0, false, 4, "1", 1, ["2", "3"], 2, 3, map[], false, false, Some(2));
    assert Drained(p, 3) == d;
    SampleFlush(d);
  }

  lemma SampleFlush(d: Receiver)
    requires d == Receiver(SampleId, 0, false, 4, "1", 1, ["2", "3"], 2, 3, map[], false, false, Some(2))
    ensures Settled(d) == SampleAfter2
  {
    assert Flatten(["2", "3"]) == "23" by {
      assert ["2", "3"][..1] == ["2"];
      assert ["2"][..0] == [];
    }
    assert Settled(d) == Flushed(d);
  }

  /** Chunk 3, waiting in the map, follows chunk 2 into the staging buffer. */
  lemma SampleDrain()
    ensures Drain(["2"], 1, map[3 := "3"], 3) == (["2", "3"], 2, map[], 4)
  {
    var m: map<int, string> := map[3 := "3"];
    assert 3 in m && m[3] == "3";
    assert m != map[] by { assert 3 !in map[3 := "3"] - {3}; }
    assert m - {3} == map[];
    assert ["2"] + ["3"] == ["2", "3"];
    assert Drain(["2"], 1, m, 3) == Drain(["2", "3"], 2, map[], 4);
  }

  lemma SampleLast()
    ensures Process(SampleAfter2, SampleChunk(4, "4", End), 3) == (SampleAfter4, true)
  {
    var c := SampleChunk(4, "4", End);
    assert ChunkBytes(c) == "4";
    SampleAppend(SampleAfter2, c, 3);
    assert "123" + "4" == "1234";
  }

  /** An in-order one-byte chunk with nothing waiting in the map, under a zero threshold. */
  lemma SampleAppend(r: Receiver, c: Msg, now: int)
    requires r.messageId == c.messageId && !r.aborted && c.byteRange.Some? && c.flag != Abort
    requires c.body.Some? && |ChunkBytes(c)| == 1 && c.byteRange.value.start == |r.blob| + 1
    requires r.size == |r.blob| && r.bufferedChunks == [] && r.bufferedBytes == 0
    requires r.bufferSize == 0 && r.incontiguousChunks == map[]
    ensures Process(r, c, now).0
         == Ended(Seen(r, c, now), c).(blob := r.blob + ChunkBytes(c), size := |r.blob| + 1)
  {
    var b := ChunkBytes(c);
    assert Flatten([b]) == b by { assert [b][..0] == []; }
  }

  /**
   * The fields of a receiver as the source updates them in place. The first
   * chunk's Message-ID, the buffer threshold and the file flag never change.
   */
  class ChunkReceiver {
    const messageId: Option<string>
    const bufferSize: int
    const isFile: bool
    var totalBytes: int
    var blob: string
    var size: int
    var bufferedChunks: seq<string>
    var bufferedBytes: int
    var receivedBytes: int
    var incontiguousChunks: map<int, string>
    var aborted: bool
    var remoteAbort: bool
    var lastReceive: Option<int>

    /** The receiver's fields as a value. */
    function State(): Receiver
      reads this
    {
      Receiver(messageId, bufferSize, isFile, totalBytes, blob, size, bufferedChunks, bufferedBytes,
        receivedBytes, incontiguousChunks, aborted, remoteAbort, lastReceive)
    }

    constructor (firstChunk: Msg, bufferSize: int, now: int)
      requires firstChunk.byteRange.Some?
      ensures State() == Start(firstChunk, bufferSize, now)
    {
      messageId := firstChunk.messageId;
      this.bufferSize := bufferSize;
      isFile := IsFile(firstChunk.disposition);
      totalBytes := firstChunk.byteRange.value.total;
      blob := "";
      size := 0;
      bufferedChunks := [];
      bufferedBytes := 0;
      receivedBytes := 0;
      incontiguousChunks := map[];
      aborted := false;
      remoteAbort := false;
      lastReceive := None;
      new;
      var accepted := ProcessChunk(firstChunk, now);
    }

    method ProcessChunk(chunk: Msg, now: int) returns (ok: bool)
      requires chunk.byteRange.Some?
      modifies this
      ensures State() == Process(old(State()), chunk, now).0
      ensures ok == Process(old(State()), chunk, now).1
    {
      var next := size + bufferedBytes + 1;
      if aborted {
        return false;
      }
      if chunk.messageId != messageId {
        return false;
      }
      lastReceive := Some(now);
      var body := ChunkBytes(chunk);
      receivedBytes := receivedBytes + |body|;
      var start := chunk.byteRange.value.start;
      assert State() == Seen(old(State()), chunk, now);
      if chunk.flag == End {
        totalBytes := start + |body| - 1;
      } else if chunk.flag == Message.Abort {
        Abort();
        remoteAbort := true;
        return false;
      }
      assert State() == Ended(Seen(old(State()), chunk, now), chunk);
      PlaceChunk(start, body, next);
      return true;
    }

    /** Lines 100-155: an accepted chunk is appended, stored ahead of a gap, or written over the blob. */
    method PlaceChunk(start: int, body: string, next: int)
      modifies this
      ensures State() == Place(old(State()), start, body, next)
    {
      if start == next {
        AppendChunk(body, next);
      } else if start > next {
        incontiguousChunks := incontiguousChunks[start := body];
      } else {
        OverwriteChunk(start, body);
      }
    }

    /** Lines 100-131: the expected chunk extends the staging buffer, which then drains and may be written out. */
    method AppendChunk(body: string, next: int)
      modifies this
      ensures State() == Place(old(State()), next, body, next)
    {
      bufferedChunks := bufferedChunks + [body];
      bufferedBytes := bufferedBytes + |body|;
      DrainChunks(next + |body|);
      if bufferedBytes >= bufferSize || size + bufferedBytes == totalBytes {
        WriteToBlob();
      }
    }

    /** Lines 135-155: a chunk starting before the expected offset is written over the stored bytes. */
    method OverwriteChunk(start: int, body: string)
      modifies this
      ensures State() == Overwrite(Flushed(old(State())), start, body)
    {
      WriteToBlob();
      var before := if start > 1 then BlobSlice(blob, 0, start - 1) else "";
      var after := if start + |body| <= size then BlobSlice(blob, start + |body| - 1, |blob|) else "";
      blob := before + body + after;
      size := |blob|;
    }

    /** Lines 107-124: out-of-order chunks that have become contiguous move to the staging buffer. */
    method DrainChunks(from: int)
      modifies this
      ensures State() == Drained(old(State()), from)
    {
      var next := from;
      while incontiguousChunks != map[]
        invariant Drain(bufferedChunks, bufferedBytes, incontiguousChunks, next)
               == Drain(old(bufferedChunks), old(bufferedBytes), old(incontiguousChunks), from)
        invariant State() == old(State()).(bufferedChunks := bufferedChunks, bufferedBytes := bufferedBytes,
                                           incontiguousChunks := incontiguousChunks)
        decreases |incontiguousChunks|
      {
        if next !in incontiguousChunks {
          break;
        }
        var c := incontiguousChunks[next];
        incontiguousChunks := incontiguousChunks - {next};
        bufferedChunks := bufferedChunks + [c];
        bufferedBytes := bufferedBytes + |c|;
        next := next + |c|;
      }
    }

    method IsComplete() returns (b: bool)
      ensures b == Complete(State())
    {
      return aborted || size == totalBytes;
    }

    method Abort()
      modifies this
      ensures State() == old(State()).(aborted := true)
    {
      aborted := true;
    }

    /** `writeToBlob(receiver)`. */
    method WriteToBlob()
      modifies this
      ensures State() == Flushed(old(State()))
    {
      if size > 0 {
        FlattenCons(blob, bufferedChunks);
        bufferedChunks := [blob] + bufferedChunks;
      }
      blob := Flatten(bufferedChunks);
      size := |blob|;
      bufferedChunks := [];
      bufferedBytes := 0;
    }
  }
}
