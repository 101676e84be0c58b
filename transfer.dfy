/**
 * One message end to end: the chunks a `ChunkSender` cuts from its payload,
 * delivered in order to the far end's `ChunkReceiver`, rebuild the payload.
 *
 * On the wire the far end learns the Message-ID of each chunk from its
 * Message-ID header, which every chunk carries (`ChunkSending.HeadingValues`);
 * `Delivered` stands for that: the chunk with its `messageId` field set.
 * Every chunk of one message is processed at the same time `now`; the time
 * only feeds `lastReceive` and the idle timeout, not the reassembly.
 */
module Transfer {
  import opened Wrappers
  import opened Message
  import CS = ChunkSending
  import CR = ChunkReceiving

  /** The chunks as the far end parses them: each carries the message's Message-ID. */
  function Delivered(cs: seq<Msg>, mid: string): (ds: seq<Msg>)
    ensures |ds| == |cs|
    ensures forall i :: 0 <= i < |cs| ==> ds[i] == cs[i].(messageId := Some(mid))
  {
    if cs == [] then [] else [cs[0].(messageId := Some(mid))] + Delivered(cs[1..], mid)
  }

  /** Every chunk in `ds` has a Byte-Range. */
  predicate Ranged(ds: seq<Msg>)
  {
    forall i :: 0 <= i < |ds| ==> ds[i].byteRange.Some?
  }

  /**
   * `processChunk` called on each chunk of `ds` in turn: the receiver at
   * the end, and whether every call returned true.
   */
  function Feed(r: CR.Receiver, ds: seq<Msg>, now: int): (CR.Receiver, bool)
    requires Ranged(ds)
    decreases |ds|
  {
    if ds == [] then (r, true)
    else
      var o := CR.Process(r, ds[0], now);
      var rest := Feed(o.0, ds[1..], now);
      (rest.0, o.1 && rest.1)
  }

  /**
   * With nothing waiting out of order, the chunk the receiver expects
   * extends its contiguous prefix by exactly the chunk's bytes and leaves
   * the out-of-order map empty; a prefix that reaches the total size is
   * written out to the blob.
   */
  lemma InOrderExtends(r: CR.Receiver, chunk: Msg, now: int)
    requires chunk.byteRange.Some? && CR.Accepts(r, chunk) && CR.Valid(r)
    requires chunk.byteRange.value.start == CR.NextStart(r) && r.incontiguousChunks == map[]
    ensures var (o, ok) := CR.Process(r, chunk, now);
      && ok && CR.Valid(o) && o.incontiguousChunks == map[]
      && CR.Contents(o) == CR.Contents(r) + CR.ChunkBytes(chunk)
      && o.messageId == r.messageId && !o.aborted
      && o.totalBytes == CR.Ended(r, chunk).totalBytes
      && o.receivedBytes == r.receivedBytes + |CR.ChunkBytes(chunk)|
      && (|CR.Contents(o)| == o.totalBytes ==> o.blob == CR.Contents(o) && o.size == o.totalBytes)
  {
    var body := CR.ChunkBytes(chunk);
    var e := CR.Ended(CR.Seen(r, chunk, now), chunk);
    var pushed := CR.Pushed(e, body);
    var next := CR.NextStart(r) + |body|;
    assert CR.Valid(e) && CR.Contents(e) == CR.Contents(r);
    assert CR.Drain(pushed.bufferedChunks, pushed.bufferedBytes, pushed.incontiguousChunks, next)
        == (pushed.bufferedChunks, pushed.bufferedBytes, pushed.incontiguousChunks, next);
    assert CR.Drained(pushed, next) == pushed;
  }

  /**
   * Fed in order to a receiver that holds the first `from` bytes of `p` and
   * expects `|p|` bytes, the chunks that carry the rest of `p` are all
   * accepted, and the receiver ends complete with exactly `p` in its blob,
   * every byte counted once and nothing waiting.
   */
  lemma {:induction false} FeedCarries(r: CR.Receiver, cs: seq<Msg>, p: string, from: int, mid: string, now: int)
    requires CS.Carries(cs, p, from)
    requires CR.Valid(r) && CR.Contents(r) == p[..from] && r.incontiguousChunks == map[]
    requires !r.aborted && r.messageId == Some(mid) && r.totalBytes == |p| && r.receivedBytes == from
    ensures Ranged(Delivered(cs, mid))
    ensures var (o, ok) := Feed(r, Delivered(cs, mid), now);
      && ok && CR.Complete(o) && !o.aborted && o.blob == p && CR.Contents(o) == p
      && o.receivedBytes == |p| && o.incontiguousChunks == map[]
    decreases |cs|
  {
    var ds := Delivered(cs, mid);
    CarriesRanged(cs, p, from);
    var c := ds[0];
    var end := c.byteRange.value.end;
    assert CR.ChunkBytes(c) == p[from..end];
    assert p[..from] + p[from..end] == p[..end];
    InOrderExtends(r, c, now);
    var o := CR.Process(r, c, now).0;
    if |cs| == 1 {
      assert p[..end] == p;
    } else {
      assert ds[1..] == Delivered(cs[1..], mid);
      FeedCarries(o, cs[1..], p, end, mid, now);
    }
  }

  lemma {:induction false} CarriesRanged(cs: seq<Msg>, p: string, from: int)
    requires CS.Carries(cs, p, from)
    ensures forall i :: 0 <= i < |cs| ==> cs[i].byteRange.Some?
    decreases |cs|
  {
    if |cs| > 1 {
      CarriesRanged(cs[1..], p, cs[0].byteRange.value.end);
      assert forall i :: 1 <= i < |cs| ==> cs[i] == cs[1..][i - 1];
    }
  }

  /**
   * A new sender with a non-empty payload, given enough transaction ids,
   * cuts chunks that a receiver built from the first of them (the
   * `ChunkReceiver` constructor, which processes that chunk) and fed the
   * others in order accepts one by one; the receiver ends complete, with
   * the sender's payload in its blob, its size counted and nothing waiting.
   */
  lemma SendReceive(mid: string, body: CS.Content, contentType: Option<string>, disposition: Option<string>,
                    description: Option<string>, toPath: seq<string>, localUri: string, tids: seq<string>,
                    chunkSize: int, bufferSize: int, now: int)
    requires var s := CS.Fresh(mid, body, contentType, disposition, description); s.size > 0
    requires chunkSize > 0 && |tids| * chunkSize >= CS.Fresh(mid, body, contentType, disposition, description).size
    ensures var s := CS.Fresh(mid, body, contentType, disposition, description);
      var ds := Delivered(CS.Transmit(s, toPath, localUri, tids, chunkSize).0, mid);
      && ds != [] && Ranged(ds)
      && var (o, ok) := Feed(CR.Start(ds[0], bufferSize, now), ds[1..], now);
      && CR.Process(CR.Fresh(ds[0], bufferSize), ds[0], now).1 && ok
      && CR.Complete(o) && !o.aborted && o.blob == s.blob
      && o.receivedBytes == |s.blob| && o.incontiguousChunks == map[]
  {
    var s := CS.Fresh(mid, body, contentType, disposition, description);
    var cs := CS.Transmit(s, toPath, localUri, tids, chunkSize).0;
    CS.TransmitAll(s, toPath, localUri, tids, chunkSize);
    var ds := Delivered(cs, mid);
    var r0 := CR.Fresh(ds[0], bufferSize);
    assert s.blob[..0] == CR.Contents(r0);
    FeedCarries(r0, cs, s.blob, 0, mid, now);
  }
}
