/**
 * Reassembly in any order (src/ChunkReceiver.js): the chunks a
 * `ChunkSender` cuts from one payload, delivered in any order, each once,
 * to a `ChunkReceiver` built from whichever of them arrives first, are all
 * accepted, and the receiver ends complete with the payload in its blob,
 * every byte counted and nothing left waiting out of order.
 *
 * The chunks cut one payload into pieces; `Tiles` states what the proof
 * needs of such a cut, and `Holds` what a receiver holds once some of the
 * pieces have arrived.
 */
module Reassembly {
  import opened Wrappers
  import opened Message
  import CS = ChunkSending
  import CR = ChunkReceiving
  import Transfer

  /**
   * `all` cuts the message `p` into non-empty pieces, each keyed by the
   * 1-based offset of its first byte, that do not overlap and together
   * cover `p`.
   */
  predicate Tiles(all: map<int, string>, p: string)
  {
    (forall k :: k in all ==> |all[k]| > 0 && CR.Lands(p, k, all[k]))
    && Disjoint(all) && (forall q :: 0 <= q < |p| ==> Covered(all, q))
  }

  /** No piece of `all` starts inside another. */
  predicate Disjoint(all: map<int, string>)
  {
    forall k, j :: k in all && j in all && k < j ==> k + |all[k]| <= j
  }

  /** Some piece of `all` holds the byte at the 0-based offset `q`. */
  predicate Covered(all: map<int, string>, q: int)
  {
    exists k :: k in all && k - 1 <= q < k - 1 + |all[k]|
  }

  /**
   * What a receiver of `p` holds once every piece of `all` outside `unseen`
   * has arrived: the received prefix is a prefix of `p`; a piece still to
   * come starts at or beyond the expected offset and is not waiting; a
   * piece that came lies inside the prefix or waits, beyond the expected
   * offset, under its own offset; nothing else waits; and a prefix that
   * reaches the total size is written out to the blob.
   */
  predicate Holds(r: CR.Receiver, p: string, all: map<int, string>, unseen: set<int>)
  {
    CR.Valid(r) && !r.aborted && r.totalBytes == |p| && CR.Contents(r) <= p
    && Placed(|CR.Contents(r)|, r.incontiguousChunks, all, unseen)
    && (|CR.Contents(r)| == r.totalBytes ==> r.bufferedChunks == [] && r.blob == CR.Contents(r))
  }

  /**
   * Where the pieces are, for a prefix of `n` bytes and the map `m` of
   * waiting pieces, as `Holds` states it.
   */
  predicate Placed(n: int, m: map<int, string>, all: map<int, string>, unseen: set<int>)
  {
    (forall k :: k in all && k in unseen ==> k >= n + 1 && k !in m)
    && (forall k :: k in all && k !in unseen ==>
          k - 1 + |all[k]| <= n || (k > n + 1 && k in m && m[k] == all[k]))
    && (forall k :: k in m ==> k in all && k > n + 1)
  }

  /** A receiver that holds some pieces agrees with `p` in the sense of `ChunkReceiving.Consistent`. */
  lemma HoldsConsistent(r: CR.Receiver, p: string, all: map<int, string>, unseen: set<int>)
    requires Tiles(all, p) && Holds(r, p, all, unseen)
    ensures CR.Consistent(r, p)
  {
    forall k | k in r.incontiguousChunks
      ensures CR.Lands(p, k, r.incontiguousChunks[k])
    {
      assert k in all && k !in unseen;
    }
  }

  /**
   * The drain, started at `next` over waiting pieces of `all`, takes every
   * piece that starts inside the bytes it appends.
   */
  lemma {:induction false} RunTakes(m: map<int, string>, next: int, all: map<int, string>)
    requires Disjoint(all) && forall k :: k in m ==> k in all && m[k] == all[k]
    ensures forall j :: j in all && next <= j < next + |CR.Run(m, next)| ==> j in m && j !in CR.Left(m, next)
    decreases |m|
  {
    if next in m {
      var c := m[next];
      var rest := m - {next};
      RunTakes(rest, next + |c|, all);
      CR.RunLeaves(rest, next + |c|);
      forall j | j in all && next <= j < next + |CR.Run(m, next)|
        ensures j in m && j !in CR.Left(m, next)
      {
        if j != next {
          assert next + |c| <= j;
        }
      }
    }
  }

  /** Every piece the drain takes lies inside the bytes it appends. */
  lemma {:induction false} RunSpan(m: map<int, string>, next: int)
    ensures forall j :: j in m && j !in CR.Left(m, next) ==> next <= j && j + |m[j]| <= next + |CR.Run(m, next)|
    decreases |m|
  {
    if next in m {
      RunSpan(m - {next}, next + |m[next]|);
    }
  }

  /**
   * `Place` for the expected piece `body`: the prefix grows by the piece and
   * by the run of waiting pieces that follows it, which leave the map.
   */
  lemma PlaceShape(e: CR.Receiver, body: string, next: int)
    requires CR.Valid(e) && next == CR.NextStart(e)
    ensures var o, after := CR.Place(e, next, body, next), next + |body|;
      CR.Valid(o) && CR.Contents(o) == CR.Contents(e) + body + CR.Run(e.incontiguousChunks, after)
      && o.incontiguousChunks == CR.Left(e.incontiguousChunks, after)
      && (|CR.Contents(o)| == o.totalBytes ==> o.bufferedChunks == [] && o.blob == CR.Contents(o))
  {
    var pushed := CR.Pushed(e, body);
    CR.DrainedGrows(pushed, next + |body|);
  }

  /**
   * The piece the receiver expects, in terms of the drain: the prefix grows
   * by the piece and by the run of waiting pieces that follows it, which
   * leave the map.
   */
  lemma InOrderShape(r: CR.Receiver, c: Msg, now: int)
    requires c.byteRange.Some? && CR.Accepts(r, c) && CR.Valid(r) && c.byteRange.value.start == CR.NextStart(r)
    ensures var o, m, next := CR.Process(r, c, now).0, r.incontiguousChunks, c.byteRange.value.start + |CR.ChunkBytes(c)|;
      CR.Valid(o) && |CR.Contents(o)| == |CR.Contents(r)| + |CR.ChunkBytes(c)| + |CR.Run(m, next)|
      && o.incontiguousChunks == CR.Left(m, next)
      && !o.aborted && (c.flag != End ==> o.totalBytes == r.totalBytes)
      && (c.flag == End ==> o.totalBytes == next - 1)
      && (|CR.Contents(o)| == o.totalBytes ==> o.bufferedChunks == [] && o.blob == CR.Contents(o))
  {
    var k, body := c.byteRange.value.start, CR.ChunkBytes(c);
    var e := CR.Ended(CR.Seen(r, c, now), c);
    assert CR.Valid(e) && CR.Contents(e) == CR.Contents(r) && e.incontiguousChunks == r.incontiguousChunks;
    assert CR.Process(r, c, now).0 == CR.Place(e, k, body, k);
    PlaceShape(e, body, k);
  }

  /** The piece the receiver expects: it joins the prefix, with every waiting piece the drain reaches. */
  lemma StepInOrder(r: CR.Receiver, c: Msg, now: int, p: string, all: map<int, string>, unseen: set<int>)
    requires Tiles(all, p) && Holds(r, p, all, unseen)
    requires c.byteRange.Some? && CR.Accepts(r, c) && c.byteRange.value.start == CR.NextStart(r)
    requires var k := c.byteRange.value.start;
      k in all && k in unseen && CR.ChunkBytes(c) == all[k] && (c.flag == End ==> k - 1 + |all[k]| == |p|)
    ensures Holds(CR.Process(r, c, now).0, p, all, unseen - {c.byteRange.value.start})
  {
    InOrderShape(r, c, now);
    HoldsConsistent(r, p, all, unseen);
    CR.ProcessConsistent(r, c, now, p);
    HoldsAfterRun(r, c.byteRange.value.start, CR.Process(r, c, now).0, p, all, unseen);
  }

  /** The bookkeeping of `StepInOrder`, from the receiver `r` before to the receiver `o` after. */
  lemma HoldsAfterRun(r: CR.Receiver, k: int, o: CR.Receiver, p: string, all: map<int, string>, unseen: set<int>)
    requires Disjoint(all) && Holds(r, p, all, unseen)
    requires k == |CR.Contents(r)| + 1 && k in all && k in unseen
    requires var m, next := r.incontiguousChunks, k + |all[k]|;
      CR.Valid(o) && |CR.Contents(o)| == |CR.Contents(r)| + |all[k]| + |CR.Run(m, next)|
      && o.incontiguousChunks == CR.Left(m, next)
    requires !o.aborted && o.totalBytes == |p| && CR.Contents(o) <= p
    requires |CR.Contents(o)| == o.totalBytes ==> o.bufferedChunks == [] && o.blob == CR.Contents(o)
    ensures Holds(o, p, all, unseen - {k})
  {
    Rebuilt(|CR.Contents(r)|, k, r.incontiguousChunks, |CR.Contents(o)|, o.incontiguousChunks, all, unseen);
  }

  /**
   * The expected piece at `k = n + 1` arrives: the prefix grows to `n'`
   * bytes by the piece and the run of waiting pieces after it, and `m'` is
   * what the drain leaves waiting.
   */
  lemma Rebuilt(n: int, k: int, m: map<int, string>, n': int, m': map<int, string>, all: map<int, string>,
                unseen: set<int>)
    requires Disjoint(all) && Placed(n, m, all, unseen) && k == n + 1 && k in all && k in unseen
    requires var next := k + |all[k]|;
      n' == next - 1 + |CR.Run(m, next)| && m' == CR.Left(m, next)
    ensures Placed(n', m', all, unseen - {k})
  {
    var next := k + |all[k]|;
    assert forall j :: j in m ==> j in all && m[j] == all[j] by {
      forall j | j in m
        ensures j in all && m[j] == all[j]
      {
        assert j !in unseen;
      }
    }
    CR.RunLeaves(m, next);
    RunTakes(m, next, all);
    RunSpan(m, next);
    forall j | j in m'
      ensures j in all && j > n' + 1
    {
      assert k + |all[k]| <= j;
    }
    forall j | j in all && j in unseen - {k}
      ensures j >= n' + 1 && j !in m'
    {
      assert j !in m && k + |all[k]| <= j;
    }
    forall j | j in all && j !in unseen - {k}
      ensures j - 1 + |all[j]| <= n' || (j > n' + 1 && j in m' && m'[j] == all[j])
    {
      if j != k && j in m && j !in m' {
        assert j - 1 + |m[j]| <= n';
      }
    }
  }

  /** A piece beyond the expected offset: it waits under its own offset. */
  lemma StepAhead(r: CR.Receiver, c: Msg, now: int, p: string, all: map<int, string>, unseen: set<int>)
    requires Tiles(all, p) && Holds(r, p, all, unseen)
    requires c.byteRange.Some? && CR.Accepts(r, c) && c.byteRange.value.start != CR.NextStart(r)
    requires var k := c.byteRange.value.start;
      k in all && k in unseen && CR.ChunkBytes(c) == all[k] && (c.flag == End ==> k - 1 + |all[k]| == |p|)
    ensures Holds(CR.Process(r, c, now).0, p, all, unseen - {c.byteRange.value.start})
  {
    CR.ProcessAhead(r, c, now);
    CR.ProcessOutcome(r, c, now);
  }

  /**
   * One piece still to come arrives: the receiver accepts it, counts its
   * bytes and holds it.
   */
  lemma Step(r: CR.Receiver, c: Msg, now: int, p: string, all: map<int, string>, unseen: set<int>)
    requires Tiles(all, p) && Holds(r, p, all, unseen)
    requires c.byteRange.Some? && CR.Accepts(r, c)
    requires var k := c.byteRange.value.start;
      k in all && k in unseen && CR.ChunkBytes(c) == all[k] && (c.flag == End ==> k - 1 + |all[k]| == |p|)
    ensures var (o, ok) := CR.Process(r, c, now);
      ok && Holds(o, p, all, unseen - {c.byteRange.value.start})
      && o.receivedBytes == r.receivedBytes + |CR.ChunkBytes(c)| && o.messageId == r.messageId
  {
    CR.ProcessOutcome(r, c, now);
    if c.byteRange.value.start == CR.NextStart(r) {
      StepInOrder(r, c, now, p, all, unseen);
    } else {
      StepAhead(r, c, now, p, all, unseen);
    }
  }

  /** The piece of `all` that holds the byte at the 0-based offset `q`. */
  lemma PieceAt(all: map<int, string>, p: string, q: int) returns (k: int)
    requires Tiles(all, p) && 0 <= q < |p|
    ensures k in all && k - 1 <= q < k - 1 + |all[k]|
  {
    assert Covered(all, q);
    k :| k in all && k - 1 <= q < k - 1 + |all[k]|;
  }

  /**
   * Once every piece has arrived the receiver is complete: it holds `p` in
   * its blob and nothing waits out of order.
   */
  lemma AllArrived(r: CR.Receiver, p: string, all: map<int, string>)
    requires Tiles(all, p) && Holds(r, p, all, {})
    ensures CR.Complete(r) && r.blob == p && r.incontiguousChunks == map[]
  {
    var n := |CR.Contents(r)|;
    if n < |p| {
      var k := PieceAt(all, p, n);
      assert false;
    }
    assert CR.Contents(r) == p;
    assert forall k :: k in all ==> k <= |p|;
    assert forall k :: k !in r.incontiguousChunks;
  }

  // ---------------------------------------------------------------------
  // the chunks of one payload

  /** The 1-based offset a chunk's Byte-Range starts at (0 without a Byte-Range). */
  function StartOf(c: Msg): int
  {
    if c.byteRange.Some? then c.byteRange.value.start else 0
  }

  /** The offsets the chunks of `cs` start at. */
  function Starts(cs: seq<Msg>): set<int>
  {
    set c | c in cs :: StartOf(c)
  }

  /** No two chunks of `cs` start at the same offset. */
  predicate DistinctStarts(cs: seq<Msg>)
  {
    forall i, j :: 0 <= i < j < |cs| ==> StartOf(cs[i]) != StartOf(cs[j])
  }

  /** The pieces the chunks of `cs` carry, keyed by the offsets they start at. */
  function Keyed(cs: seq<Msg>): map<int, string>
  {
    if cs == [] then map[] else Keyed(cs[1..])[StartOf(cs[0]) := CR.ChunkBytes(cs[0])]
  }

  /**
   * A chunk of message `mid`, `|p|` bytes long, that carries the piece of
   * `all` at the offset it starts at and is flagged as the end only when
   * that piece ends `p`.
   */
  predicate PieceOf(c: Msg, mid: string, all: map<int, string>, p: string)
  {
    c.byteRange.Some? && c.messageId == Some(mid) && c.flag != Abort && c.byteRange.value.total == |p|
    && StartOf(c) in all && CR.ChunkBytes(c) == all[StartOf(c)]
    && (c.flag == End ==> StartOf(c) - 1 + |all[StartOf(c)]| == |p|)
  }

  /** The bytes the chunks of `cs` carry, counted. */
  function Bytes(cs: seq<Msg>): int
  {
    if cs == [] then 0 else |CR.ChunkBytes(cs[0])| + Bytes(cs[1..])
  }

  /**
   * Chunks of message `mid` that carry `p` from the 0-based offset `from`
   * on, as a sender cuts them: their pieces cut the rest of `p`, each chunk
   * carries its piece, they start at increasing offsets, the first at
   * `from + 1`, and their bytes add up to the rest of `p`.
   */
  lemma {:induction false} CarriesPieces(cs: seq<Msg>, p: string, from: int, mid: string)
    requires CS.Carries(cs, p, from)
    ensures var ds := Transfer.Delivered(cs, mid); var all := Keyed(ds);
      ds != [] && StartOf(ds[0]) == from + 1
      && (forall k :: k in all ==> k > from && |all[k]| > 0 && CR.Lands(p, k, all[k]))
      && Disjoint(all) && (forall q :: from <= q < |p| ==> Covered(all, q))
      && (forall c :: c in ds ==> PieceOf(c, mid, all, p))
      && (forall i, j :: 0 <= i < j < |ds| ==> StartOf(ds[i]) < StartOf(ds[j]))
      && all.Keys == Starts(ds) && Bytes(ds) == |p| - from
    decreases |cs|
  {
    var ds := Transfer.Delivered(cs, mid);
    var c := ds[0];
    var end := c.byteRange.value.end;
    var piece := p[from..end];
    assert CR.ChunkBytes(c) == piece && StartOf(c) == from + 1;
    assert CR.Lands(p, from + 1, piece);
    if |cs| == 1 {
      assert ds == [c] && Keyed(ds) == map[from + 1 := piece] && end == |p|;
      forall q | from <= q < |p|
        ensures Covered(Keyed(ds), q)
      {
        assert from + 1 in Keyed(ds) && from <= q < from + |Keyed(ds)[from + 1]|;
      }
    } else {
      var rest := ds[1..];
      assert rest == Transfer.Delivered(cs[1..], mid);
      CarriesPieces(cs[1..], p, end, mid);
      PiecesCons(c, rest, p, from, end, mid);
    }
  }

  /** What `CarriesPieces` states of the chunks `rest` that carry `p` from `end` on. */
  predicate CarriedFrom(rest: seq<Msg>, p: string, end: int, mid: string)
  {
    var all := Keyed(rest);
    rest != [] && StartOf(rest[0]) == end + 1
    && (forall k :: k in all ==> k > end && |all[k]| > 0 && CR.Lands(p, k, all[k]))
    && Disjoint(all) && (forall q :: end <= q < |p| ==> Covered(all, q))
    && (forall x :: x in rest ==> PieceOf(x, mid, all, p))
    && (forall i, j :: 0 <= i < j < |rest| ==> StartOf(rest[i]) < StartOf(rest[j]))
    && all.Keys == Starts(rest) && Bytes(rest) == |p| - end
  }

  /** The chunk `c` that carries `p[from..end]`, as `CarriesPieces` takes it before the rest. */
  predicate CarriesFirst(c: Msg, p: string, from: int, end: int, mid: string)
  {
    c.byteRange.Some? && c.messageId == Some(mid) && c.flag == Continued
    && c.byteRange.value.total == |p| && StartOf(c) == from + 1
    && 0 <= from < end <= |p| && CR.ChunkBytes(c) == p[from..end]
  }

  /** The step of `CarriesPieces`: the chunk carrying `p[from..end]` put before chunks that carry the rest. */
  lemma PiecesCons(c: Msg, rest: seq<Msg>, p: string, from: int, end: int, mid: string)
    requires CarriesFirst(c, p, from, end, mid) && CarriedFrom(rest, p, end, mid)
    ensures var ds := [c] + rest; var all := Keyed(ds);
      (forall k :: k in all ==> k > from && |all[k]| > 0 && CR.Lands(p, k, all[k]))
      && Disjoint(all) && (forall q :: from <= q < |p| ==> Covered(all, q))
      && (forall x :: x in ds ==> PieceOf(x, mid, all, p))
      && (forall i, j :: 0 <= i < j < |ds| ==> StartOf(ds[i]) < StartOf(ds[j]))
      && all.Keys == Starts(ds) && Bytes(ds) == |p| - from
  {
    var ds := [c] + rest;
    assert ds[1..] == rest;
    assert Keyed(ds) == Keyed(rest)[from + 1 := p[from..end]];
    PiecesConsCut(c, rest, p, from, end, mid);
    PiecesConsChunks(c, rest, p, from, end, mid);
    PiecesConsKeys(c, rest, p, from, end, mid);
  }

  lemma PiecesConsCut(c: Msg, rest: seq<Msg>, p: string, from: int, end: int, mid: string)
    requires CarriesFirst(c, p, from, end, mid) && CarriedFrom(rest, p, end, mid)
    ensures var all := Keyed(rest)[from + 1 := p[from..end]];
      (forall k :: k in all ==> k > from && |all[k]| > 0 && CR.Lands(p, k, all[k]))
      && Disjoint(all) && (forall q :: from <= q < |p| ==> Covered(all, q))
  {
    var before := Keyed(rest);
    var all := before[from + 1 := p[from..end]];
    assert from + 1 !in before;
    assert CR.Lands(p, from + 1, p[from..end]);
    forall q | from <= q < |p|
      ensures Covered(all, q)
    {
      if q < end {
        assert from + 1 in all && from <= q < from + |all[from + 1]|;
      } else {
        assert Covered(before, q);
        var k :| k in before && k - 1 <= q < k - 1 + |before[k]|;
        assert k in all && all[k] == before[k];
      }
    }
  }

  lemma PiecesConsChunks(c: Msg, rest: seq<Msg>, p: string, from: int, end: int, mid: string)
    requires CarriesFirst(c, p, from, end, mid) && CarriedFrom(rest, p, end, mid)
    ensures var ds, all := [c] + rest, Keyed(rest)[from + 1 := p[from..end]];
      (forall x :: x in ds ==> PieceOf(x, mid, all, p))
      && (forall i, j :: 0 <= i < j < |ds| ==> StartOf(ds[i]) < StartOf(ds[j]))
  {
    var ds := [c] + rest;
    var before := Keyed(rest);
    var all := before[from + 1 := p[from..end]];
    assert from + 1 !in before;
    assert PieceOf(c, mid, all, p) by {
      assert Continued[0] != Abort[0] && Continued[0] != End[0];
    }
    forall x | x in rest
      ensures PieceOf(x, mid, all, p)
    {
      assert PieceOf(x, mid, before, p);
    }
    PiecesConsIncreasing(c, rest, end);
  }

  lemma PiecesConsIncreasing(c: Msg, rest: seq<Msg>, end: int)
    requires StartOf(c) <= end && forall x :: x in rest ==> StartOf(x) > end
    requires forall i, j :: 0 <= i < j < |rest| ==> StartOf(rest[i]) < StartOf(rest[j])
    ensures var ds := [c] + rest; forall i, j :: 0 <= i < j < |ds| ==> StartOf(ds[i]) < StartOf(ds[j])
  {
    var ds := [c] + rest;
    forall i, j | 0 <= i < j < |ds|
      ensures StartOf(ds[i]) < StartOf(ds[j])
    {
      assert ds[j] == rest[j - 1];
      if i > 0 {
        assert ds[i] == rest[i - 1];
      }
    }
  }

  lemma PiecesConsKeys(c: Msg, rest: seq<Msg>, p: string, from: int, end: int, mid: string)
    requires CarriesFirst(c, p, from, end, mid) && CarriedFrom(rest, p, end, mid)
    ensures var ds, all := [c] + rest, Keyed(rest)[from + 1 := p[from..end]];
      all.Keys == Starts(ds) && Bytes(ds) == |p| - from
  {
    var ds := [c] + rest;
    var before := Keyed(rest);
    var all := before[from + 1 := p[from..end]];
    assert ds[1..] == rest;
    forall k | k in Starts(ds)
      ensures k in all
    {
      var x :| x in ds && k == StartOf(x);
      if x != c {
        assert x in rest;
      }
    }
    forall k | k in all
      ensures k in Starts(ds)
    {
      if k != from + 1 {
        assert k in Starts(rest);
        var x :| x in rest && k == StartOf(x);
        assert x in ds;
      } else {
        assert c in ds;
      }
    }
  }

  lemma {:induction false} BytesAppend(a: seq<Msg>, b: seq<Msg>)
    ensures Bytes(a + b) == Bytes(a) + Bytes(b)
    decreases |a|
  {
    if a == [] {
      assert a + b == b;
    } else {
      assert (a + b)[1..] == a[1..] + b;
      BytesAppend(a[1..], b);
    }
  }

  /** Chunks in another order carry as many bytes. */
  lemma {:induction false} BytesPermuted(a: seq<Msg>, b: seq<Msg>)
    requires multiset(a) == multiset(b)
    ensures Bytes(a) == Bytes(b)
    decreases |a|
  {
    if a == [] {
      assert |b| == |multiset(b)| == 0;
    } else {
      var x := a[0];
      assert x in multiset(b);
      var j :| 0 <= j < |b| && b[j] == x;
      assert a == [x] + a[1..];
      assert multiset(a[1..]) == multiset(a) - multiset{x};
      RemoveAt(b, j);
      BytesPermuted(a[1..], b[..j] + b[j + 1..]);
    }
  }

  /** Taking the chunk at `j` out of `b` takes it out of the multiset and its bytes out of the count. */
  lemma RemoveAt(b: seq<Msg>, j: int)
    requires 0 <= j < |b|
    ensures multiset(b[..j] + b[j + 1..]) == multiset(b) - multiset{b[j]}
    ensures Bytes(b) == Bytes(b[..j] + b[j + 1..]) + |CR.ChunkBytes(b[j])|
  {
    var x := b[j];
    assert b == b[..j] + ([x] + b[j + 1..]);
    BytesAppend(b[..j], [x] + b[j + 1..]);
    BytesAppend(b[..j], b[j + 1..]);
    assert ([x] + b[j + 1..])[1..] == b[j + 1..];
  }

  /** A chunk occurs at most once among chunks that start at distinct offsets. */
  lemma {:induction false} OnceAtMost(s: seq<Msg>, x: Msg)
    requires DistinctStarts(s)
    ensures multiset(s)[x] <= 1
    decreases |s|
  {
    if s != [] {
      assert s == [s[0]] + s[1..];
      assert DistinctStarts(s[1..]) by {
        forall i, j | 0 <= i < j < |s[1..]|
          ensures StartOf(s[1..][i]) != StartOf(s[1..][j])
        {
          assert s[1..][i] == s[i + 1] && s[1..][j] == s[j + 1];
        }
      }
      OnceAtMost(s[1..], x);
      if s[0] == x {
        assert x !in s[1..] by {
          forall i | 0 <= i < |s[1..]|
            ensures s[1..][i] != x
          {
            assert s[1..][i] == s[i + 1];
          }
        }
      }
    }
  }

  /** Chunks at distinct offsets stay at distinct offsets in another order. */
  lemma DistinctPermuted(a: seq<Msg>, b: seq<Msg>)
    requires multiset(a) == multiset(b) && DistinctStarts(b)
    ensures DistinctStarts(a)
  {
    forall i, j | 0 <= i < j < |a|
      ensures StartOf(a[i]) != StartOf(a[j])
    {
      if StartOf(a[i]) == StartOf(a[j]) {
        assert a[i] in multiset(b) && a[j] in multiset(b);
        var u :| 0 <= u < |b| && b[u] == a[i];
        var v :| 0 <= v < |b| && b[v] == a[j];
        assert u == v;
        assert a == a[..i] + [a[i]] + a[i + 1..j] + [a[j]] + a[j + 1..];
        assert multiset(a)[a[i]] >= 2;
        OnceAtMost(b, a[i]);
        assert false;
      }
    }
  }

  // ---------------------------------------------------------------------
  // any order

  /** The chunks after the first of distinct-start chunks start at distinct offsets too. */
  lemma DistinctTail(rest: seq<Msg>)
    requires rest != [] && DistinctStarts(rest)
    ensures DistinctStarts(rest[1..])
    ensures Starts(rest[1..]) == Starts(rest) - {StartOf(rest[0])}
  {
    var tail := rest[1..];
    forall i, j | 0 <= i < j < |tail|
      ensures StartOf(tail[i]) != StartOf(tail[j])
    {
      assert tail[i] == rest[i + 1] && tail[j] == rest[j + 1];
    }
    forall k | k in Starts(tail)
      ensures k in Starts(rest) && k != StartOf(rest[0])
    {
      var x :| x in tail && k == StartOf(x);
      var i :| 0 <= i < |tail| && tail[i] == x;
      assert rest[i + 1] == x;
    }
    forall k | k in Starts(rest) && k != StartOf(rest[0])
      ensures k in Starts(tail)
    {
      var x :| x in rest && k == StartOf(x);
      assert x != rest[0];
      var i :| 0 <= i < |rest| && rest[i] == x;
      assert tail[i - 1] == x;
    }
  }

  /**
   * Pieces still to come, fed in any order to a receiver that holds the
   * others: each is accepted, and the receiver ends complete with `p` in its
   * blob, their bytes counted and nothing waiting.
   */
  lemma {:induction false} FeedAnyOrder(r: CR.Receiver, rest: seq<Msg>, now: int, p: string,
                                        all: map<int, string>, mid: string)
    requires Tiles(all, p) && Holds(r, p, all, Starts(rest)) && r.messageId == Some(mid)
    requires (forall c :: c in rest ==> PieceOf(c, mid, all, p)) && DistinctStarts(rest)
    ensures Transfer.Ranged(rest)
    ensures var (o, ok) := Transfer.Feed(r, rest, now);
      ok && CR.Complete(o) && !o.aborted && o.blob == p && o.incontiguousChunks == map[]
      && o.receivedBytes == r.receivedBytes + Bytes(rest)
    decreases |rest|
  {
    if rest == [] {
      assert Starts(rest) == {};
      AllArrived(r, p, all);
    } else {
      FirstArrives(r, rest, now, p, all, mid);
      FeedAnyOrder(CR.Process(r, rest[0], now).0, rest[1..], now, p, all, mid);
    }
  }

  /** The first of the pieces still to come arrives: what `FeedAnyOrder` needs of the rest then holds. */
  lemma FirstArrives(r: CR.Receiver, rest: seq<Msg>, now: int, p: string, all: map<int, string>, mid: string)
    requires Tiles(all, p) && Holds(r, p, all, Starts(rest)) && r.messageId == Some(mid)
    requires (forall c :: c in rest ==> PieceOf(c, mid, all, p)) && DistinctStarts(rest) && rest != []
    ensures Transfer.Ranged(rest)
    ensures var (o, ok) := CR.Process(r, rest[0], now);
      ok && Holds(o, p, all, Starts(rest[1..])) && o.messageId == Some(mid)
      && o.receivedBytes == r.receivedBytes + |CR.ChunkBytes(rest[0])|
      && (forall c :: c in rest[1..] ==> PieceOf(c, mid, all, p)) && DistinctStarts(rest[1..])
  {
    var c := rest[0];
    assert c in rest;
    Step(r, c, now, p, all, Starts(rest));
    DistinctTail(rest);
    assert forall x :: x in rest[1..] ==> x in rest;
    assert forall i :: 0 <= i < |rest| ==> rest[i] in rest;
  }

  /**
   * Chunks that carry all of `p`, in any order: they cut `p` into the pieces
   * of `all`, each carries its piece, no two start at the same offset, every
   * piece is carried, and their bytes add up to `p`.
   */
  lemma ArrivalPieces(cs: seq<Msg>, p: string, mid: string, arrival: seq<Msg>) returns (all: map<int, string>)
    requires CS.Carries(cs, p, 0) && multiset(arrival) == multiset(Transfer.Delivered(cs, mid))
    ensures arrival != [] && Tiles(all, p) && DistinctStarts(arrival)
    ensures (forall c :: c in arrival ==> PieceOf(c, mid, all, p))
    ensures all.Keys == Starts(arrival) && Bytes(arrival) == |p|
  {
    var ds := Transfer.Delivered(cs, mid);
    CarriesPieces(cs, p, 0, mid);
    all := Keyed(ds);
    Permuted(arrival, ds, p, mid, all);
  }

  /** What `ArrivalPieces` states, carried over from the chunks `ds` to the same chunks in another order. */
  lemma Permuted(arrival: seq<Msg>, ds: seq<Msg>, p: string, mid: string, all: map<int, string>)
    requires multiset(arrival) == multiset(ds) && ds != []
    requires (forall i, j :: 0 <= i < j < |ds| ==> StartOf(ds[i]) < StartOf(ds[j]))
    requires (forall c :: c in ds ==> PieceOf(c, mid, all, p))
    requires all.Keys == Starts(ds) && Bytes(ds) == |p|
    ensures arrival != [] && DistinctStarts(arrival)
    ensures (forall c :: c in arrival ==> PieceOf(c, mid, all, p))
    ensures all.Keys == Starts(arrival) && Bytes(arrival) == |p|
  {
    DistinctPermuted(arrival, ds);
    BytesPermuted(arrival, ds);
    assert forall c :: c in arrival <==> c in ds by {
      forall c
        ensures c in arrival <==> c in ds
      {
        assert c in arrival <==> c in multiset(arrival);
      }
    }
    assert ds[0] in arrival;
    assert Starts(arrival) == Starts(ds);
  }

  /** The receiver the first chunk to arrive builds holds none of the pieces yet. */
  lemma FreshHolds(first: Msg, bufferSize: int, p: string, all: map<int, string>, mid: string)
    requires Tiles(all, p) && PieceOf(first, mid, all, p) && |p| > 0
    ensures Holds(CR.Fresh(first, bufferSize), p, all, all.Keys)
  {
  }

  /**
   * Chunks that carry all of `p`, delivered in any order, each once, to a
   * receiver built from whichever arrives first: all are accepted and the
   * receiver ends complete with `p` in its blob, every byte counted once
   * and nothing waiting.
   */
  lemma CarriedAnyOrder(cs: seq<Msg>, p: string, mid: string, bufferSize: int, now: int, arrival: seq<Msg>)
    requires CS.Carries(cs, p, 0) && multiset(arrival) == multiset(Transfer.Delivered(cs, mid))
    ensures arrival != [] && Transfer.Ranged(arrival)
      && var (o, ok) := Transfer.Feed(CR.Fresh(arrival[0], bufferSize), arrival, now);
      && ok && CR.Complete(o) && !o.aborted && o.blob == p && o.receivedBytes == |p|
      && o.incontiguousChunks == map[]
  {
    var all := ArrivalPieces(cs, p, mid, arrival);
    assert arrival[0] in arrival;
    FreshHolds(arrival[0], bufferSize, p, all, mid);
    FeedAnyOrder(CR.Fresh(arrival[0], bufferSize), arrival, now, p, all, mid);
  }

  /**
   * The chunks a new sender cuts from a non-empty payload, delivered in any
   * order, each once, to a receiver built from whichever arrives first (the
   * `ChunkReceiver` constructor, which processes that chunk) and fed the
   * others: every chunk is accepted, and the receiver ends complete, not
   * aborted, holding exactly the payload in its blob, with every byte
   * counted once and no chunk left waiting out of order.
   */
  lemma AnyOrder(mid: string, body: CS.Content, contentType: Option<string>, disposition: Option<string>,
                 description: Option<string>, toPath: seq<string>, localUri: string, tids: seq<string>,
                 chunkSize: int, bufferSize: int, now: int, arrival: seq<Msg>)
    requires var s := CS.Fresh(mid, body, contentType, disposition, description); s.size > 0
    requires chunkSize > 0 && |tids| * chunkSize >= CS.Fresh(mid, body, contentType, disposition, description).size
    requires var s := CS.Fresh(mid, body, contentType, disposition, description);
      multiset(arrival) == multiset(Transfer.Delivered(CS.Transmit(s, toPath, localUri, tids, chunkSize).0, mid))
    ensures var s := CS.Fresh(mid, body, contentType, disposition, description);
      arrival != [] && Transfer.Ranged(arrival)
      && var (o, ok) := Transfer.Feed(CR.Start(arrival[0], bufferSize, now), arrival[1..], now);
      && CR.Process(CR.Fresh(arrival[0], bufferSize), arrival[0], now).1 && ok
      && CR.Complete(o) && !o.aborted && o.blob == s.blob && o.receivedBytes == |s.blob|
      && o.incontiguousChunks == map[]
  {
    var s := CS.Fresh(mid, body, contentType, disposition, description);
    CS.TransmitAll(s, toPath, localUri, tids, chunkSize);
    CarriedAnyOrder(CS.Transmit(s, toPath, localUri, tids, chunkSize).0, s.blob, mid, bufferSize, now, arrival);
  }
}
