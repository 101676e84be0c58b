/**
 * The outgoing chunk scheduler that src/RelayConnection.js (`sendRequests`)
 * and src/DataChannelSession.js (`processSendQueue`) each contain: a queue
 * of active senders, a count of SEND requests still awaiting a response,
 * and a pass that sends at most two chunks.
 *
 * One step takes the head sender. A sender aborted by the far end is
 * shifted off the queue before its abort chunk is cut. The head then cuts
 * its next chunk, the outstanding count grows by one, and the queue is
 * shifted again if the sender has now sent everything; otherwise the head
 * moves to the tail when other senders wait. The second shift after a
 * remote abort removes whichever sender is then at the head.
 *
 * Senders are objects in the source; here the scheduler works on a queue of
 * identities `K` and a map from identity to `Lane`, the state of that
 * sender. A sender queued twice has one lane, as an object does.
 */
module SendQueue {
  import opened Message
  import CS = ChunkSending

  /** A queued sender's fields, its session's To-Path and local URI, and its chunk size. */
  datatype Lane = Lane(sender: CS.Sender, toPath: seq<string>, localUri: string, chunkSize: int)

  /** One chunk that was cut: the lane it was cut from, as it was before the cut, and its transaction id. */
  datatype Cut = Cut(lane: Lane, tid: string)

  /**
   * The scheduler's state: the queue, every sender's lane, the outstanding
   * count, the chunks cut so far and how many transaction ids are used.
   */
  datatype Queue<K(==)> = Queue(order: seq<K>, lanes: map<K, Lane>, outstanding: int, sent: seq<Cut>, used: nat)

  /** Every queued sender has a lane. */
  predicate Covered<K(==)>(q: Queue<K>)
  {
    forall k :: k in q.order ==> k in q.lanes
  }

  /** The chunk the head sender cuts, with the transaction id `tid`. */
  function HeadChunk(l: Lane, tid: string): Msg
  {
    CS.Chunk(l.sender, l.toPath, l.localUri, tid, l.chunkSize)
  }

  /** The SEND requests the cuts put on the wire, in order. */
  function Wire(cuts: seq<Cut>): (m: seq<Msg>)
    ensures |m| == |cuts|
  {
    seq(|cuts|, i requires 0 <= i < |cuts| => HeadChunk(cuts[i].lane, cuts[i].tid))
  }

  /** The messages `wired` are the chunks of the cuts `cuts`, in order. */
  predicate Carries(cuts: seq<Cut>, wired: seq<Msg>)
  {
    |wired| == |cuts| && forall i :: 0 <= i < |cuts| ==> wired[i] == HeadChunk(cuts[i].lane, cuts[i].tid)
  }

  /** The chunks of the cuts are the messages `Wire` lists. */
  lemma CarriesWire(cuts: seq<Cut>, wired: seq<Msg>)
    requires Carries(cuts, wired)
    ensures wired == Wire(cuts)
  {
    forall i | 0 <= i < |cuts|
      ensures wired[i] == Wire(cuts)[i]
    {
      WireAt(cuts, i);
    }
  }

  /** One more cut carries one more chunk. */
  lemma CarriesMore(cuts: seq<Cut>, wired: seq<Msg>, c: Cut)
    requires Carries(cuts, wired)
    ensures Carries(cuts + [c], wired + [HeadChunk(c.lane, c.tid)])
  {
  }

  /** The `i`th message on the wire is the chunk of the `i`th cut. */
  lemma WireAt(cuts: seq<Cut>, i: int)
    requires 0 <= i < |cuts|
    ensures Wire(cuts)[i] == HeadChunk(cuts[i].lane, cuts[i].tid)
  {
  }

  /** The queue after the first shift (RelayConnection.js lines 249-252): the head leaves when `dropped`. */
  function Unqueued<K>(order: seq<K>, dropped: bool): (r: seq<K>)
    ensures forall k :: k in r ==> k in order
  {
    if dropped && order != [] then order[1..] else order
  }

  /**
   * The queue after the head sent a chunk (lines 260-266): the head leaves
   * when `complete`, and otherwise moves to the tail when other senders
   * wait. Shifting an empty queue leaves it empty.
   */
  function Requeued<K>(o: seq<K>, complete: bool): (r: seq<K>)
    ensures forall k :: k in r ==> k in o
  {
    if complete then (if o == [] then o else o[1..])
    else if |o| > 1 then o[1..] + [o[0]]
    else o
  }

  /**
   * The queue after its head sent a chunk (lines 249-266): `dropped` when
   * the head had been aborted by the far end, `complete` when the head has
   * now sent everything.
   */
  function Shifted<K>(order: seq<K>, dropped: bool, complete: bool): (r: seq<K>)
    ensures forall k :: k in r ==> k in order
  {
    Requeued(Unqueued(order, dropped), complete)
  }

  /** One turn of the loop: the head cuts a chunk with the next transaction id. */
  function Step<K(==)>(q: Queue<K>, ids: nat -> string): (r: Queue<K>)
    requires q.order != [] && Covered(q)
    ensures Covered(r) && r.lanes.Keys == q.lanes.Keys
    ensures |r.sent| == |q.sent| + 1 && r.outstanding == q.outstanding + 1 && r.used == q.used + 1
  {
    var h := q.order[0];
    var l := q.lanes[h];
    var t := CS.Advanced(l.sender, l.chunkSize);
    Queue(Shifted(q.order, l.sender.aborted && l.sender.remoteAbort, CS.SendComplete(t)),
      q.lanes[h := l.(sender := t)], q.outstanding + 1, q.sent + [Cut(l, ids(q.used))], q.used + 1)
  }

  /** The loop, given `budget` more turns: it stops early when the queue empties or the count reaches `max`. */
  function Pass<K(==)>(q: Queue<K>, max: int, ids: nat -> string, budget: nat): (r: Queue<K>)
    requires Covered(q)
    ensures Covered(r) && r.lanes.Keys == q.lanes.Keys
    decreases budget
  {
    if budget == 0 || q.order == [] || q.outstanding >= max then q
    else Pass(Step(q, ids), max, ids, budget - 1)
  }

  /** `sendRequests` / `processSendQueue`: one pass of at most two turns. */
  function SendPass<K(==)>(q: Queue<K>, max: int, ids: nat -> string): (r: Queue<K>)
    requires Covered(q)
  {
    Pass(q, max, ids, 2)
  }

  // ---------------------------------------------------------------------
  // properties

  /**
   * A pass with `budget` turns sends `n` chunks, at most `budget`, each
   * adding exactly one to the outstanding count and using one transaction
   * id.
   */
  lemma {:induction false} PassCounts<K>(q: Queue<K>, max: int, ids: nat -> string, budget: nat)
    requires Covered(q)
    ensures var r := Pass(q, max, ids, budget);
      var n := |r.sent| - |q.sent|;
      && 0 <= n <= budget
      && r.outstanding == q.outstanding + n && r.used == q.used + n
    decreases budget
  {
    if budget > 0 && q.order != [] && q.outstanding < max {
      PassCounts(Step(q, ids), max, ids, budget - 1);
    }
  }

  /**
   * A pass sends nothing exactly when it may not start, and stops short of
   * its budget only with an empty queue or a full count.
   */
  lemma {:induction false} PassStops<K>(q: Queue<K>, max: int, ids: nat -> string, budget: nat)
    requires Covered(q)
    ensures var r := Pass(q, max, ids, budget);
      var n := |r.sent| - |q.sent|;
      && (n == 0 <==> budget == 0 || q.order == [] || q.outstanding >= max)
      && (n < budget ==> r.order == [] || r.outstanding >= max)
    decreases budget
  {
    if budget > 0 && q.order != [] && q.outstanding < max {
      var s := Step(q, ids);
      PassStops(s, max, ids, budget - 1);
      PassCounts(s, max, ids, budget - 1);
    }
  }

  /** A pass only ever drops senders from the queue: it queues none that was not queued. */
  lemma {:induction false} PassWithin<K>(q: Queue<K>, max: int, ids: nat -> string, budget: nat)
    requires Covered(q)
    ensures forall k :: k in Pass(q, max, ids, budget).order ==> k in q.order
    decreases budget
  {
    if budget > 0 && q.order != [] && q.outstanding < max {
      PassWithin(Step(q, ids), max, ids, budget - 1);
    }
  }

  /** A count that starts at or below `max` stays at or below it. */
  lemma {:induction false} PassBounded<K>(q: Queue<K>, max: int, ids: nat -> string, budget: nat)
    requires Covered(q) && q.outstanding <= max
    ensures Pass(q, max, ids, budget).outstanding <= max
    decreases budget
  {
    if budget > 0 && q.order != [] && q.outstanding < max {
      PassBounded(Step(q, ids), max, ids, budget - 1);
    }
  }

  /** The cuts carry consecutive transaction ids from `ids(from)`. */
  predicate Numbered(cuts: seq<Cut>, ids: nat -> string, from: nat)
    decreases |cuts|
  {
    cuts == [] || (cuts[0].tid == ids(from) && Numbered(cuts[1..], ids, from + 1))
  }

  /** The `j`th of numbered cuts carries `ids(from + j)`. */
  lemma {:induction false} NumberedAt(cuts: seq<Cut>, ids: nat -> string, from: nat, j: nat)
    requires Numbered(cuts, ids, from) && j < |cuts|
    ensures cuts[j].tid == ids(from + j)
    decreases j
  {
    if j > 0 {
      NumberedAt(cuts[1..], ids, from + 1, j - 1);
    }
  }

  /**
   * The chunks a pass cuts follow the ones already cut, and each carries
   * the next unused transaction id in order.
   */
  lemma {:induction false} PassSends<K>(q: Queue<K>, max: int, ids: nat -> string, budget: nat)
    requires Covered(q)
    ensures var r := Pass(q, max, ids, budget);
      && |q.sent| <= |r.sent| && r.sent == q.sent + r.sent[|q.sent|..]
      && Numbered(r.sent[|q.sent|..], ids, q.used)
    decreases budget
  {
    if budget == 0 || q.order == [] || q.outstanding >= max {
      assert q.sent[|q.sent|..] == [];
    } else {
      var s := Step(q, ids);
      StepShape(q, ids);
      PassSends(s, max, ids, budget - 1);
      var r := Pass(s, max, ids, budget - 1);
      var c := s.sent[|q.sent|];
      Regroup(q.sent, s.sent, r.sent, c);
      assert s.used == q.used + 1;
      assert ([c] + r.sent[|s.sent|..])[1..] == r.sent[|s.sent|..];
    }
  }

  /** Splitting a sequence after a prefix that grew by one element. */
  lemma Regroup<T>(a: seq<T>, b: seq<T>, r: seq<T>, c: T)
    requires b == a + [c] && |b| <= |r| && r == b + r[|b|..]
    ensures |a| <= |r| && r == a + r[|a|..] && r[|a|..] == [c] + r[|b|..]
  {
  }

  /** Senders that are not queued keep their lanes through a pass. */
  lemma {:induction false} PassKeepsIdle<K>(q: Queue<K>, max: int, ids: nat -> string, budget: nat, k: K)
    requires Covered(q) && k in q.lanes && k !in q.order
    ensures Pass(q, max, ids, budget).lanes[k] == q.lanes[k]
    decreases budget
  {
    if budget == 0 || q.order == [] || q.outstanding >= max {
    } else {
      var s := Step(q, ids);
      assert k !in s.order;
      PassKeepsIdle(s, max, ids, budget - 1, k);
    }
  }

  /** What a single turn cuts and where the new transaction id goes. */
  lemma StepShape<K>(q: Queue<K>, ids: nat -> string)
    requires q.order != [] && Covered(q)
    ensures var s := Step(q, ids);
      && s.sent == q.sent + [Cut(q.lanes[q.order[0]], ids(q.used))]
      && (forall k :: k in q.lanes && k != q.order[0] ==> s.lanes[k] == q.lanes[k])
  {
  }

  /** Every chunk on the wire is a SEND request with its cut's transaction id. */
  lemma WireSends(cuts: seq<Cut>, i: int)
    requires 0 <= i < |cuts|
    ensures Wire(cuts)[i].kind == Request("SEND") && Wire(cuts)[i].tid == cuts[i].tid
  {
    WireAt(cuts, i);
    var l := cuts[i].lane;
    if l.sender.aborted {
      CS.ChunkAborted(l.sender, l.toPath, l.localUri, cuts[i].tid, l.chunkSize);
    } else {
      CS.ChunkRange(l.sender, l.toPath, l.localUri, cuts[i].tid, l.chunkSize);
    }
  }

  /** Cutting one more chunk puts one more message on the wire. */
  lemma WireAppend(cuts: seq<Cut>, c: Cut)
    ensures Wire(cuts + [c]) == Wire(cuts) + [HeadChunk(c.lane, c.tid)]
  {
    forall i | 0 <= i < |cuts|
      ensures Wire(cuts + [c])[i] == Wire(cuts)[i]
    {
      WireAt(cuts + [c], i);
      WireAt(cuts, i);
    }
    WireAt(cuts + [c], |cuts|);
  }

  /** A wire that grew by the chunk of `c` after the cuts `cuts` holds the chunks of `cuts + [c]`. */
  lemma WireGrown(w0: seq<Msg>, cuts: seq<Cut>, c: Cut, w: seq<Msg>)
    requires w == w0 + Wire(cuts) + [HeadChunk(c.lane, c.tid)]
    ensures w == w0 + Wire(cuts + [c])
  {
    WireAppend(cuts, c);
  }

  /**
   * A turn whose head was not aborted by the far end removes that sender
   * once it is send-complete, and otherwise moves it to the tail when other
   * senders wait (lines 260-266): the queue loses at most the head, and the
   * head's lane becomes the sender after its chunk.
   */
  lemma StepRotates<K>(q: Queue<K>, ids: nat -> string)
    requires q.order != [] && Covered(q)
    requires var s := q.lanes[q.order[0]].sender; !(s.aborted && s.remoteAbort)
    ensures var h, l := q.order[0], q.lanes[q.order[0]];
      var t := CS.Advanced(l.sender, l.chunkSize);
      var r := Step(q, ids);
      && r.lanes[h] == l.(sender := t)
      && (CS.SendComplete(t) ==> r.order == q.order[1..] && multiset(r.order) == multiset(q.order) - multiset{h})
      && (!CS.SendComplete(t) && |q.order| > 1 ==> r.order == q.order[1..] + [h])
      && (!CS.SendComplete(t) && |q.order| == 1 ==> r.order == q.order)
      && (!CS.SendComplete(t) ==> multiset(r.order) == multiset(q.order))
  {
    var h := q.order[0];
    assert q.order == [h] + q.order[1..];
  }

  /**
   * A head aborted by the far end sends its abort chunk and leaves the
   * queue, and the second shift also takes the sender behind it, which
   * sends nothing: with two or more senders the queue loses its first two.
   */
  lemma RemoteAbortShiftsTwice<K>(q: Queue<K>, ids: nat -> string)
    requires q.order != [] && Covered(q)
    requires var s := q.lanes[q.order[0]].sender; s.aborted && s.remoteAbort
    ensures var l := q.lanes[q.order[0]];
      var r := Step(q, ids);
      && r.sent == q.sent + [Cut(l, ids(q.used))]
      && HeadChunk(l, ids(q.used)).flag == Message.Abort && HeadChunk(l, ids(q.used)).byteRange.None?
      && r.order == (if |q.order| >= 2 then q.order[2..] else [])
      && (|q.order| >= 2 && q.order[1] != q.order[0] ==> r.lanes[q.order[1]] == q.lanes[q.order[1]])
  {
    var l := q.lanes[q.order[0]];
    CS.ChunkAborted(l.sender, l.toPath, l.localUri, ids(q.used), l.chunkSize);
  }

  /**
   * The sender queued right behind a remotely aborted head, if it is queued
   * only once and is not that head, is no longer queued after the turn,
   * although it has sent nothing and need not be complete.
   */
  lemma RemoteAbortLosesNext<K>(q: Queue<K>, ids: nat -> string)
    requires |q.order| >= 2 && Covered(q)
    requires var s := q.lanes[q.order[0]].sender; s.aborted && s.remoteAbort
    requires multiset(q.order)[q.order[1]] == 1 && q.order[1] != q.order[0]
    ensures var r := Step(q, ids);
      q.order[1] !in r.order && r.lanes[q.order[1]] == q.lanes[q.order[1]]
  {
    var b := q.order[1];
    var r := Step(q, ids);
    RemoteAbortShiftsTwice(q, ids);
    assert q.order == q.order[..2] + q.order[2..];
    assert multiset(q.order) == multiset(q.order[..2]) + multiset(q.order[2..]);
    assert multiset(q.order[..2])[b] == 1;
    assert multiset(q.order[2..])[b] == 0;
  }

  /** Two unfinished, healthy senders, each with more than one chunk to send. */
  function TwoWaiting(a: CS.Sender, b: CS.Sender, route: seq<string>, uri: string, size: int): Queue<int>
  {
    Queue([1, 2], map[1 := Lane(a, route, uri, size), 2 := Lane(b, route, uri, size)], 0, [], 0)
  }

  /**
   * Round robin: with two healthy senders that each have more than one
   * chunk left, a pass sends one chunk from each, in queue order, and
   * leaves the queue as it found it.
   */
  lemma TwoSendersAlternate(a: CS.Sender, b: CS.Sender, route: seq<string>, uri: string, size: int,
                            max: int, ids: nat -> string)
    requires !a.aborted && !b.aborted && size > 0 && max >= 2
    requires a.sentBytes + size < a.size && b.sentBytes + size < b.size
    ensures var q := TwoWaiting(a, b, route, uri, size);
      var r := SendPass(q, max, ids);
      && r.order == [1, 2]
      && r.sent == [Cut(q.lanes[1], ids(0)), Cut(q.lanes[2], ids(1))]
      && r.outstanding == 2
  {
    var q := TwoWaiting(a, b, route, uri, size);
    var s1 := Step(q, ids);
    assert s1.order == [2, 1];
    var s2 := Step(s1, ids);
    assert s2.order == [1, 2];
  }
}
