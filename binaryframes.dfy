/**
 * The chunk receiver as written, for chunks that arrive in binary frames
 * (src/ChunkReceiver.js:57-158).
 *
 * A chunk from a binary frame has an ArrayBuffer body, which the receiver
 * wraps as a `Uint8Array` (lines 74-79) and, when it arrives ahead of a
 * gap, parks in the out-of-order map in that form. The drain loop (lines
 * 106-124) sizes a parked chunk by `byteLength` only when it is an
 * ArrayBuffer, and by `.size` otherwise; a `Uint8Array` has no `.size`, so
 * the byte count of the staging buffer, and with it the expected offset,
 * become NaN. From then on:
 * - the next lookup in the map fails, so the drain stops;
 * - neither test of the write-out (lines 128-131) holds, so nothing is
 *   written to the blob;
 * - every later chunk fails both offset tests and takes the overwrite
 *   branch, whose write-out resets the byte count to 0.
 *
 * `Held` is the receiver with what the source knows beyond `Receiver`:
 * which parked chunks are binary, and whether the byte count is NaN.
 * `ChunkReceiving.Process` is the intended receiver, which sizes every
 * parked chunk by its bytes; the two agree until a binary chunk is drained.
 */
module BinaryFrames {
  import opened Wrappers
  import opened Message
  import CR = ChunkReceiving
  import Transfer

  /**
   * A receiver as the source holds it: its fields `r`, the offsets of the
   * parked chunks kept as a `Uint8Array`, and whether `bufferedBytes` is NaN.
   */
  datatype Held = Held(r: CR.Receiver, binary: set<int>, nan: bool)

  /** A chunk whose body came from a binary frame, an ArrayBuffer. */
  predicate IsBinary(chunk: Msg)
  {
    chunk.body.Some? && chunk.body.value.Binary?
  }

  /**
   * Lines 106-124 as written: the drain over the staged chunks, their byte
   * count, the map and the expected offset `next`. A binary chunk taken from
   * the map is staged, but its size reads as undefined: the result's last
   * component says the count became NaN, and the loop stops there.
   */
  function DrainAsWritten(chunks: seq<string>, bytes: int, ahead: map<int, string>, next: int, binary: set<int>)
    : (d: (seq<string>, int, map<int, string>, bool))
    ensures d.2.Keys <= ahead.Keys
    decreases |ahead|
  {
    if ahead == map[] || next !in ahead then (chunks, bytes, ahead, false)
    else if next in binary then (chunks + [ahead[next]], bytes, ahead - {next}, true)
    else
      var c := ahead[next];
      DrainAsWritten(chunks + [c], bytes + |c|, ahead - {next}, next + |c|, binary)
  }

  /** `processChunk(chunk)` at time `now` as written: the new receiver and the result. */
  function ProcessAsWritten(h: Held, chunk: Msg, now: int): (Held, bool)
    requires chunk.byteRange.Some?
  {
    var r := h.r;
    if r.aborted || chunk.messageId != r.messageId then (h, false)
    else if chunk.flag == Abort then (h.(r := CR.Seen(r, chunk, now).(aborted := true, remoteAbort := true)), false)
    else
      var e := CR.Ended(CR.Seen(r, chunk, now), chunk);
      var start, body := chunk.byteRange.value.start, CR.ChunkBytes(chunk);
      if h.nan then
        // `start === NaN` and `start > NaN` are both false: the overwrite branch.
        (Held(CR.Overwrite(CR.Flushed(e), start, body), h.binary, false), true)
      else
        var next := CR.NextStart(r);
        if start == next then
          var p := CR.Pushed(e, body);
          var d := DrainAsWritten(p.bufferedChunks, p.bufferedBytes, p.incontiguousChunks, next + |body|, h.binary);
          var o := p.(bufferedChunks := d.0, bufferedBytes := d.1, incontiguousChunks := d.2);
          if d.3 then (Held(o, h.binary, true), true) else (Held(CR.Settled(o), h.binary, false), true)
        else if start > next then
          var parked := if IsBinary(chunk) then h.binary + {start} else h.binary - {start};
          (Held(e.(incontiguousChunks := e.incontiguousChunks[start := body]), parked, false), true)
        else
          (Held(CR.Overwrite(CR.Flushed(e), start, body), h.binary, false), true)
  }

  /** The constructor as written: a fresh receiver that has processed the first chunk. */
  function StartAsWritten(first: Msg, bufferSize: int, now: int): Held
    requires first.byteRange.Some?
  {
    ProcessAsWritten(Held(CR.Fresh(first, bufferSize), {}, false), first, now).0
  }

  /** `processChunk` on each chunk of `ds` in turn, as written. */
  function FeedAsWritten(h: Held, ds: seq<Msg>, now: int): (Held, bool)
    requires Transfer.Ranged(ds)
    decreases |ds|
  {
    if ds == [] then (h, true)
    else
      var o := ProcessAsWritten(h, ds[0], now);
      var rest := FeedAsWritten(o.0, ds[1..], now);
      (rest.0, o.1 && rest.1)
  }

  /** No parked chunk is binary and the byte count is a number. */
  predicate Sized(h: Held)
  {
    !h.nan && forall k :: k in h.r.incontiguousChunks ==> k !in h.binary
  }

  /** Without a binary chunk in the map, the drain as written is the intended drain. */
  lemma {:induction false} DrainAgrees(chunks: seq<string>, bytes: int, ahead: map<int, string>, next: int,
                                        binary: set<int>)
    requires forall k :: k in ahead ==> k !in binary
    ensures var d := DrainAsWritten(chunks, bytes, ahead, next, binary);
      && !d.3 && (d.0, d.1, d.2) == (CR.Drain(chunks, bytes, ahead, next).0, CR.Drain(chunks, bytes, ahead, next).1,
                                     CR.Drain(chunks, bytes, ahead, next).2)
    decreases |ahead|
  {
    if ahead != map[] && next in ahead {
      var c := ahead[next];
      DrainAgrees(chunks + [c], bytes + |c|, ahead - {next}, next + |c|, binary);
    }
  }

  /**
   * While no parked chunk is binary, a chunk is processed as written exactly
   * as the intended receiver processes it, and no parked chunk is binary
   * afterwards unless this chunk came from a binary frame.
   */
  lemma StepAgrees(h: Held, chunk: Msg, now: int)
    requires chunk.byteRange.Some? && Sized(h)
    ensures var (o, ok) := ProcessAsWritten(h, chunk, now);
      && (o.r, ok) == CR.Process(h.r, chunk, now)
      && (!IsBinary(chunk) ==> Sized(o))
  {
    var r := h.r;
    if !r.aborted && chunk.messageId == r.messageId && chunk.flag != Abort {
      var e := CR.Ended(CR.Seen(r, chunk, now), chunk);
      var start, body, next := chunk.byteRange.value.start, CR.ChunkBytes(chunk), CR.NextStart(r);
      if start == next {
        var p := CR.Pushed(e, body);
        DrainAgrees(p.bufferedChunks, p.bufferedBytes, p.incontiguousChunks, next + |body|, h.binary);
      }
    }
  }

  /**
   * Chunks from text frames (or any chunks none of which is binary) are
   * reassembled as written exactly as the intended receiver reassembles
   * them, in every order.
   */
  lemma {:induction false} TextAgrees(h: Held, ds: seq<Msg>, now: int)
    requires Transfer.Ranged(ds) && Sized(h)
    requires forall i :: 0 <= i < |ds| ==> !IsBinary(ds[i])
    ensures var (o, ok) := FeedAsWritten(h, ds, now);
      (o.r, ok) == Transfer.Feed(h.r, ds, now) && Sized(o)
    decreases |ds|
  {
    if ds != [] {
      StepAgrees(h, ds[0], now);
      var o := ProcessAsWritten(h, ds[0], now).0;
      assert forall i :: 0 <= i < |ds[1..]| ==> ds[1..][i] == ds[i + 1];
      TextAgrees(o, ds[1..], now);
    }
  }

  // ---------------------------------------------------------------------
  // a three-byte message in binary frames, arriving 1, 3, 2

  const StallId: Option<string> := Some("3560751376.r8igluab")

  /** A one-byte chunk of a three-byte message, as parsed from a binary frame. */
  function BinaryChunk(start: int, body: string, flag: string): Msg
  {
    IncomingRequest("xol1lmt9", "SEND").(
      messageId := StallId,
      byteRange := Some(ByteRange(start, start + |body| - 1, 3)),
      body := Some(Binary(body)),
      flag := flag)
  }

  /** Chunks 1, 3 and 2 of the message "123", in that order. */
  function Arrival(): (ds: seq<Msg>)
    ensures Transfer.Ranged(ds)
  {
    [BinaryChunk(1, "1", Continued), BinaryChunk(3, "3", End), BinaryChunk(2, "2", Continued)]
  }

  /** The receiver as written after chunk 1, for a buffer threshold of 0. */
  const StallAfter1 := Held(CR.Receiver(StallId, 0, false, 3, "1", 1, [], 0, 1, map[], false, false, Some(0)), {}, false)
  /** After chunk 3: it waits under offset 3 as a `Uint8Array`. */
  const StallAfter3 := Held(CR.Receiver(StallId, 0, false, 3, "1", 1, [], 0, 2, map[3 := "3"], false, false, Some(1)), {3}, false)
  /** After chunk 2: chunk 3 is drained, the count is NaN and nothing is written out. */
  const StallAfter2 := Held(CR.Receiver(StallId, 0, false, 3, "1", 1, ["2", "3"], 1, 3, map[], false, false, Some(2)), {3}, true)

  /**
   * The three chunks of "123" in binary frames, arriving 1, 3, 2: each is
   * accepted and every byte counted, but the drain of chunk 3 leaves the
   * byte count NaN, so the blob keeps one byte and the receiver is not
   * complete. No further chunk of the message arrives, so only the idle
   * timeout ends it. The intended receiver, fed the same chunks, completes
   * with "123" (`Reassembly.AnyOrder` proves this for every order).
   */
  lemma OneThreeTwoStalls()
    ensures StartAsWritten(Arrival()[0], 0, 0) == StallAfter1
    ensures ProcessAsWritten(StallAfter1, Arrival()[1], 1) == (StallAfter3, true)
    ensures ProcessAsWritten(StallAfter3, Arrival()[2], 2) == (StallAfter2, true)
    ensures StallAfter2.nan && StallAfter2.r.receivedBytes == 3 && !CR.Complete(StallAfter2.r)
    ensures var (o, ok) := Transfer.Feed(CR.Start(Arrival()[0], 0, 0), Arrival()[1..], 0);
      ok && CR.Complete(o) && o.blob == "123"
  {
    StallFirst();
    StallAhead();
    StallFill();
    IntendedCompletes();
  }

  lemma StallFirst()
    ensures StartAsWritten(Arrival()[0], 0, 0) == StallAfter1
  {
    var c := BinaryChunk(1, "1", Continued);
    assert CR.ChunkBytes(c) == "1";
    assert CR.Flatten(["1"]) == "1" by { assert ["1"][..0] == []; }
  }

  lemma StallAhead()
    ensures ProcessAsWritten(StallAfter1, Arrival()[1], 1) == (StallAfter3, true)
  {
    var c := BinaryChunk(3, "3", End);
    assert Arrival()[1] == c;
    assert CR.ChunkBytes(c) == "3";
    assert IsBinary(c);
    var r := StallAfter1.r;
    var e := CR.Ended(CR.Seen(r, c, 1), c);
    assert CR.NextStart(r) == 2;
    assert e == CR.Receiver(StallId, 0, false, 3, "1", 1, [], 0, 2, map[], false, false, Some(1));
    assert ProcessAsWritten(StallAfter1, c, 1).0.r == StallAfter3.r;
    assert ProcessAsWritten(StallAfter1, c, 1).0.binary == StallAfter3.binary;
  }

  lemma StallFill()
    ensures ProcessAsWritten(StallAfter3, Arrival()[2], 2) == (StallAfter2, true)
  {
    var c := BinaryChunk(2, "2", Continued);
    assert CR.ChunkBytes(c) == "2";
    var m: map<int, string> := map[3 := "3"];
    assert 3 in m && m[3] == "3";
    assert m != map[] by { assert 3 !in map[3 := "3"] - {3}; }
    assert m - {3} == map[];
    assert ["2"] + ["3"] == ["2", "3"];
    assert DrainAsWritten(["2"], 1, m, 3, {3}) == (["2", "3"], 1, map[], true);
  }

  /** The intended receiver completes the same arrival with the whole message. */
  lemma IntendedCompletes()
    ensures var (o, ok) := Transfer.Feed(CR.Start(Arrival()[0], 0, 0), Arrival()[1..], 0);
      ok && CR.Complete(o) && o.blob == "123"
  {
    IntendedFirst();
    IntendedFeed();
  }

  lemma IntendedFeed()
    ensures Transfer.Feed(StallAfter1.r, Arrival()[1..], 0) == (IntendedAfter2, true)
  {
    var ds := Arrival()[1..];
    IntendedAhead();
    IntendedFill();
    FeedTwo(StallAfter1.r, ds, 0);
  }

  /** The intended receiver takes the first chunk as the receiver as written does. */
  lemma IntendedFirst()
    ensures CR.Start(Arrival()[0], 0, 0) == StallAfter1.r
  {
    StallFirst();
    StepAgrees(Held(CR.Fresh(Arrival()[0], 0), {}, false), Arrival()[0], 0);
  }

  /** Feeding two chunks is processing one, then the other. */
  lemma FeedTwo(r: CR.Receiver, ds: seq<Msg>, now: int)
    requires Transfer.Ranged(ds) && |ds| == 2
    ensures var o1 := CR.Process(r, ds[0], now); var o2 := CR.Process(o1.0, ds[1], now);
      Transfer.Feed(r, ds, now) == (o2.0, o1.1 && o2.1)
  {
    var o1 := CR.Process(r, ds[0], now);
    var o2 := CR.Process(o1.0, ds[1], now);
    assert ds[1..][0] == ds[1] && ds[1..][1..] == [];
    assert Transfer.Feed(o2.0, [], now) == (o2.0, true);
    assert Transfer.Feed(o1.0, ds[1..], now) == (o2.0, o2.1);
  }

  /** The intended receiver after chunks 1 and 3 (all at time 0): chunk 3 waits. */
  const IntendedAfter3 := CR.Receiver(StallId, 0, false, 3, "1", 1, [], 0, 2, map[3 := "3"], false, false, Some(0))

  lemma IntendedAhead()
    ensures CR.Process(StallAfter1.r, Arrival()[1], 0) == (IntendedAfter3, true)
  {
    var c := BinaryChunk(3, "3", End);
    assert Arrival()[1] == c;
    assert CR.ChunkBytes(c) == "3";
  }

  /** The intended receiver after chunk 2: chunks 2 and 3 are drained and written out. */
  const IntendedAfter2 := CR.Receiver(StallId, 0, false, 3, "123", 3, [], 0, 3, map[], false, false, Some(0))

  lemma IntendedFill()
    ensures CR.Process(IntendedAfter3, Arrival()[2], 0) == (IntendedAfter2, true)
  {
    var c := BinaryChunk(2, "2", Continued);
    assert Arrival()[2] == c;
    assert CR.ChunkBytes(c) == "2";
    var m: map<int, string> := map[3 := "3"];
    assert 3 in m && m[3] == "3";
    assert m != map[] by { assert 3 !in map[3 := "3"] - {3}; }
    assert m - {3} == map[];
    assert ["2"] + ["3"] == ["2", "3"];
    assert CR.Drain(["2"], 1, m, 3) == (["2", "3"], 2, map[], 4);
    assert CR.Flatten(["2", "3"]) == "23" by {
      assert ["2", "3"][..1] == ["2"];
      assert ["2"][..0] == [];
    }
    var e := CR.Ended(CR.Seen(IntendedAfter3, c, 0), c);
    assert e == IntendedAfter3.(receivedBytes := 3);
    var p := CR.Pushed(e, "2");
    assert p == e.(bufferedChunks := ["2"], bufferedBytes := 1);
    var d := CR.Drained(p, 3);
    assert d == e.(bufferedChunks := ["2", "3"], bufferedBytes := 2, incontiguousChunks := map[]);
    assert CR.Settled(d) == IntendedAfter2;
    assert CR.Place(e, 2, "2", 2) == IntendedAfter2;
  }
}
