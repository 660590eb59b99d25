/** What every step of the protocol keeps. */
module Invariant {
  import opened AckTable
  import opened FileRing
  import opened Receivers
  import opened Senders
  import opened Protocol

  predicate InQueue(lost: seq<LostPack>, i: nat) {
    exists k :: 0 <= k < |lost| && lost[k].seqIndex == i
  }

  ghost predicate Queued(lost: seq<LostPack>, sendSeq: nat) {
    forall k | 0 <= k < |lost| :: lost[k].seqIndex < sendSeq
  }

  /** The counters of the sender and the window they span. */
  ghost predicate SenderCounts(s: Snd) {
    && Canonical(s.total)
    && s.total.mainAck <= s.sendSeq <= s.buffer.limit
    && s.sendSeq <= s.total.mainAck + SOFT_WIND
    && s.sendSeq <= Bottom(s.total) + HARD_WIND
    && s.writeEdge == s.buffer.base + SLOTS
    && s.place != Failed
    && (s.place == Returned ==> Bottom(s.total) == s.buffer.limit)
    && (s.place != Returned ==> s.buffer.base <= Bottom(s.total) < s.writeEdge)
    && (s.place != Returned ==> Bottom(s.total) < s.buffer.limit)
    && (s.place == Gate ==> !s.isTimeout)
  }

  /** Every NAK of the last reply is in the queue, and only sent packets are. */
  ghost predicate SenderQueue(s: Snd) {
    && Queued(s.lost, s.sendSeq)
    && forall n | n in s.total.naks :: InQueue(s.lost, n)
  }

  /** The sender's ring is a slice of the file, and the reader stands behind it. */
  ghost predicate SenderRing(s: Snd, file: seq<Byte>) {
    && SndOk(s, file)
    && HoldsFile(s.buffer, file)
    && s.pos == Position(file, s.buffer.base)
  }

  ghost predicate SentPacket(data: set<Datagram>, i: nat) {
    exists d :: d in data && d.seqIndex == i
  }

  /** Every datagram has an index that was sent and carries its packet of the file. */
  ghost predicate ChannelInv(file: seq<Byte>, s: Sys) {
    forall d | d in s.data :: d.seqIndex < s.snd.sendSeq && IsPacket(file, d.seqIndex, d.data)
  }

  /** Of every packet sent some datagram is not lost. */
  ghost predicate Intact(s: Sys) {
    forall i: nat | i < s.snd.sendSeq :: SentPacket(s.data, i)
  }

  ghost predicate ReceiverCounts(s: Sys) {
    var r := s.rcv;
    && Canonical(r.reply)
    && Contained(s.snd.total, r.reply)
    && r.reply.mainAck <= s.snd.sendSeq
    && r.phase != Phase.Aborted
    && (r.phase == Receiving ==> r.buffer.base <= Bottom(r.reply))
    && (r.phase == Receiving ==>
          || Bottom(r.reply) < r.writeEdge
          || (Bottom(r.reply) == r.buffer.limit && r.buffer.limit < r.buffer.base + HARD_WIND))
    && (r.phase != Receiving ==> Bottom(r.reply) == r.buffer.limit <= r.buffer.base)
  }

  /** Accepted packets are in their cells until they are written; what is written is the file. */
  ghost predicate ReceiverRing(file: seq<Byte>, r: Rcv) {
    && r.length == |file|
    && r.written == file[..Min(|file|, r.buffer.base * SINGLE_LENGTH)]
    && forall i: nat | Holds(r.reply, i) && InWindow(r.buffer, i) :: IsPacket(file, i, Cell(r.buffer.mem, i))
  }

  /** Replies only grow, up to the receiver's record, and the readable ones extend the sender's. */
  ghost predicate AcksInv(s: Sys) {
    && s.cursor <= |s.acks|
    && (forall k | 0 <= k < |s.acks| :: Canonical(s.acks[k]) && Contained(s.acks[k], s.rcv.reply))
    && (forall j, k | 0 <= j <= k < |s.acks| :: Contained(s.acks[j], s.acks[k]))
    && (forall k | s.cursor <= k < |s.acks| :: Contained(s.snd.total, s.acks[k]))
  }

  ghost predicate Inv(file: seq<Byte>, s: Sys) {
    && FileOk(file)
    && SysOk(file, s)
    && SenderCounts(s.snd)
    && SenderQueue(s.snd)
    && SenderRing(s.snd, file)
    && ChannelInv(file, s)
    && ReceiverCounts(s)
    && ReceiverRing(file, s.rcv)
    && AcksInv(s)
  }

  lemma InitialInv(file: seq<Byte>)
    requires FileOk(file)
    ensures Inv(file, Initial(file))
  {
    var count := PacketCount(|file|);
    FirstFill(Ring(0, count, seq(RING * SINGLE_LENGTH, _ => 0)), file);
    InFile(file, RING - 1);
    assert file[..Min(|file|, 0)] == [];
  }

  // ----- The queue of lost packets -----

  /** The scan resends only unacked entries, invents none and loses none. */
  lemma {:induction false} ScanQueueFacts(total: Ack, lost: seq<LostPack>, count: nat, isTimeout: bool, sendSeq: nat)
    requires count <= |lost| && Queued(lost, sendSeq)
    ensures var r := ScanQueue(total, lost, count, isTimeout);
            && Queued(r.lost, sendSeq)
            && (forall i | i in r.resent :: !Holds(total, i) && i < sendSeq)
            && (forall n: nat | InQueue(lost, n) && !Holds(total, n) :: InQueue(r.lost, n))
    decreases count
  {
    if count != 0 && (isTimeout || total.mainAck >= lost[0].triggerAck) {
      var rest := lost[1..];
      if Holds(total, lost[0].seqIndex) {
        ScanQueueFacts(total, rest, count - 1, isTimeout, sendSeq);
        forall n: nat | InQueue(lost, n) && !Holds(total, n) ensures InQueue(rest, n) {
          var k :| 0 <= k < |lost| && lost[k].seqIndex == n;
          assert rest[k - 1] == lost[k];
        }
      } else {
        var again := LostPack(lost[0].seqIndex, PlusFour(total.mainAck));
        var turned := rest + [again];
        ScanQueueFacts(total, turned, count - 1, isTimeout, sendSeq);
        forall n: nat | InQueue(lost, n) ensures InQueue(turned, n) {
          var k :| 0 <= k < |lost| && lost[k].seqIndex == n;
          if k == 0 {
            assert turned[|rest|].seqIndex == n;
          } else {
            assert turned[k - 1] == lost[k];
          }
        }
      }
    }
  }

  lemma InQueueConcat(a: seq<LostPack>, b: seq<LostPack>, n: nat)
    ensures InQueue(a + b, n) <==> InQueue(a, n) || InQueue(b, n)
  {
    if InQueue(a, n) {
      var k :| 0 <= k < |a| && a[k].seqIndex == n;
      assert (a + b)[k].seqIndex == n;
    }
    if InQueue(b, n) {
      var k :| 0 <= k < |b| && b[k].seqIndex == n;
      assert (a + b)[|a| + k].seqIndex == n;
    }
  }

  // ----- Steps -----

  /** An index the sender has sent and does not know to be received is in its window. */
  lemma UnackedInWindow(s: Snd, i: nat)
    requires SenderCounts(s) && s.place != Returned
    requires i < s.sendSeq && !Holds(s.total, i)
    ensures InWindow(s.buffer, i)
  {
    BottomIsLeastMissing(s.total);
  }

  lemma ScanInWindow(s: Snd)
    requires SenderCounts(s) && SenderQueue(s) && s.place == Head
    ensures AllInWindow(s.buffer, ScanIndices(s))
    ensures forall i | i in ScanIndices(s) :: i < s.sendSeq
  {
    var q := ScanQueue(s.total, s.lost, |s.lost|, s.isTimeout);
    ScanQueueFacts(s.total, s.lost, |s.lost|, s.isTimeout, s.sendSeq);
    forall i | i in ScanIndices(s) ensures i < s.sendSeq && InWindow(s.buffer, i) {
      assert i in q.resent || i in Outstanding(s);
      UnackedInWindow(s, i);
    }
  }

  /** Sending packets from the ring keeps the channel faithful to the file. */
  lemma WireKeeps(file: seq<Byte>, s: Snd, indices: seq<nat>, bound: nat)
    requires HoldsFile(s.buffer, file) && AllInWindow(s.buffer, indices)
    requires forall i | i in indices :: i < bound
    ensures forall d | d in Wire(s.buffer, indices) :: d.seqIndex < bound && IsPacket(file, d.seqIndex, d.data)
    ensures forall i | i in indices :: SentPacket(Wire(s.buffer, indices), i)
  {
    var sent := Datagrams(s.buffer, indices);
    forall d | d in Wire(s.buffer, indices) ensures d.seqIndex < bound && IsPacket(file, d.seqIndex, d.data) {
      var k :| 0 <= k < |sent| && sent[k] == d;
      assert indices[k] in indices;
    }
    forall i | i in indices ensures SentPacket(Wire(s.buffer, indices), i) {
      var k :| 0 <= k < |indices| && indices[k] == i;
      assert sent[k] in sent && sent[k].seqIndex == i;
    }
  }

  lemma ScanKeeps(file: seq<Byte>, s: Sys)
    requires Inv(file, s) && Enabled(s, DoScan)
    ensures Inv(file, Apply(file, s, DoScan))
  {
    ScanInWindow(s.snd);
    WireKeeps(file, s.snd, ScanIndices(s.snd), s.snd.sendSeq);
    var t := Apply(file, s, DoScan);
    var q := ScanQueue(s.snd.total, s.snd.lost, |s.snd.lost|, s.snd.isTimeout);
    ScanQueueFacts(s.snd.total, s.snd.lost, |s.snd.lost|, s.snd.isTimeout, s.snd.sendSeq);
    forall n | n in t.snd.total.naks ensures InQueue(t.snd.lost, n) {
      InQueueConcat(q.lost, OutstandingPacks(s.snd), n);
    }
  }

  lemma SendKeeps(file: seq<Byte>, s: Sys)
    requires Inv(file, s) && Enabled(s, DoSend)
    ensures Inv(file, Apply(file, s, DoSend))
  {
    BottomIsLeastMissing(s.snd.total);
    assert InWindow(s.snd.buffer, s.snd.sendSeq);
    var t := Apply(file, s, DoSend);
    WireKeeps(file, s.snd, [s.snd.sendSeq], s.snd.sendSeq + 1);
  }

  lemma TimeoutKeeps(file: seq<Byte>, s: Sys)
    requires Inv(file, s) && Enabled(s, DoTimeout)
    ensures Inv(file, Apply(file, s, DoTimeout))
  {
    var t := Apply(file, s, DoTimeout);
    assert Wire(s.snd.buffer, SentBy(s, DoTimeout)) == {};
    assert t.data == s.data;
  }

  // ----- A reply reaches the sender -----

  /** A readable reply extends what the sender knows and stays within what it sent. */
  lemma ReplyBounds(file: seq<Byte>, s: Sys, k: nat)
    requires Inv(file, s) && s.cursor <= k < |s.acks|
    ensures var reply := s.acks[k];
            && Canonical(reply) && Contained(s.snd.total, reply)
            && s.snd.total.mainAck <= reply.mainAck <= s.snd.sendSeq
            && Bottom(s.snd.total) <= Bottom(reply) <= reply.mainAck
  {
    ContainedBounds(s.snd.total, s.acks[k]);
    ContainedBounds(s.acks[k], s.rcv.reply);
    BottomIsLeastMissing(s.acks[k]);
  }

  lemma FastInWindow(file: seq<Byte>, s: Sys, k: nat)
    requires Inv(file, s) && s.snd.place == Gate && s.cursor <= k < |s.acks|
    ensures AllInWindow(s.snd.buffer, FastIndices(s.snd, s.acks[k]))
    ensures forall i | i in FastIndices(s.snd, s.acks[k]) :: i < s.snd.sendSeq
  {
    ReplyBounds(file, s, k);
    BottomIsLeastMissing(s.snd.total);
  }

  /** Every hole of the new reply is queued: an old hole already was, and a new one lies at or
      above the old mark, so the mark has jumped by two or more. */
  lemma NewHolesQueued(s: Snd, reply: Ack, n: nat)
    requires SenderCounts(s) && SenderQueue(s) && Canonical(reply) && Contained(s.total, reply)
    requires n in reply.naks
    ensures InQueue(s.lost + Packs(FastIndices(s, reply), PlusFour(s.total.mainAck)), n)
  {
    var fast := FastIndices(s, reply);
    var packs := Packs(fast, PlusFour(s.total.mainAck));
    InQueueConcat(s.lost, packs, n);
    if n < s.total.mainAck {
      assert !Holds(reply, n);
      assert !Holds(s.total, n);
    } else {
      assert s.total.mainAck <= MinusTwo(reply.mainAck);
      assert n in fast;
      var k :| 0 <= k < |fast| && fast[k] == n;
      assert packs[k].seqIndex == n;
    }
  }

  /** What a readable reply makes of the sender: the new record, the queue with the new holes, and the next
      block where the old one is complete. */
  lemma AckOutcome(file: seq<Byte>, s: Sys, k: nat)
    requires Inv(file, s) && Enabled(s, DoAck(k))
    ensures var reply := s.acks[k];
            var lost := s.snd.lost + Packs(FastIndices(s.snd, reply), PlusFour(s.snd.total.mainAck));
            var t := s.snd.(total := reply, lost := lost);
            var u := if Bottom(reply) >= s.snd.writeEdge then RefillBlock(t, file) else t;
            OnAck(s.snd, reply, file) == u.(place := if Bottom(reply) >= s.snd.buffer.limit then Returned else Head)
  {
    FastInWindow(file, s, k);
    hide Inv, FastIndices, RefillBlock;
  }

  lemma AckKeepsQueue(file: seq<Byte>, s: Sys, k: nat)
    requires Inv(file, s) && Enabled(s, DoAck(k))
    ensures SenderQueue(OnAck(s.snd, s.acks[k], file)) && OnAck(s.snd, s.acks[k], file).sendSeq == s.snd.sendSeq
  {
    var reply := s.acks[k];
    ReplyBounds(file, s, k);
    FastInWindow(file, s, k);
    AckOutcome(file, s, k);
    var fast := FastIndices(s.snd, reply);
    assert forall j | 0 <= j < |fast| :: fast[j] in fast;
    forall n | n in reply.naks ensures InQueue(OnAck(s.snd, reply, file).lost, n) {
      NewHolesQueued(s.snd, reply, n);
    }
    hide OnAck, FastIndices, InQueue;
  }

  lemma AckKeepsRing(file: seq<Byte>, s: Sys, k: nat)
    requires Inv(file, s) && Enabled(s, DoAck(k))
    ensures SenderCounts(OnAck(s.snd, s.acks[k], file)) && SenderRing(OnAck(s.snd, s.acks[k], file), file)
  {
    ReplyBounds(file, s, k);
    AckOutcome(file, s, k);
    hide OnAck, FastIndices, HoldsFile;
    if Bottom(s.acks[k]) >= s.snd.writeEdge {
      Refill(s.snd.buffer, file);
      RefillPosition(file, s.snd.buffer.base);
    }
  }

  lemma AckKeepsSender(file: seq<Byte>, s: Sys, k: nat)
    requires Inv(file, s) && Enabled(s, DoAck(k))
    ensures var t := Apply(file, s, DoAck(k)).snd;
            SenderCounts(t) && SenderQueue(t) && SenderRing(t, file) && t.sendSeq == s.snd.sendSeq
    ensures Apply(file, s, DoAck(k)).snd.total == s.acks[k]
  {
    AckOutcome(file, s, k);
    AckKeepsQueue(file, s, k);
    AckKeepsRing(file, s, k);
    AppliedSender(file, s, DoAck(k));
    hide Inv, Apply, OnAck, SenderCounts, SenderQueue, SenderRing;
  }

  lemma AckKeeps(file: seq<Byte>, s: Sys, k: nat)
    requires Inv(file, s) && Enabled(s, DoAck(k))
    ensures Inv(file, Apply(file, s, DoAck(k)))
  {
    AckKeepsSender(file, s, k);
    FastInWindow(file, s, k);
    var t := Apply(file, s, DoAck(k));
    WireKeeps(file, s.snd, FastIndices(s.snd, s.acks[k]), s.snd.sendSeq);
  }

  // ----- A datagram reaches the receiver -----

  lemma AcceptedBounds(file: seq<Byte>, s: Sys, d: Datagram)
    requires Inv(file, s) && d in s.data && s.rcv.phase == Receiving
    requires Update(s.rcv.reply, d.seqIndex).accepted
    ensures InWindow(s.rcv.buffer, d.seqIndex)
    ensures Bottom(s.rcv.reply) < s.rcv.writeEdge
    ensures var reply := Update(s.rcv.reply, d.seqIndex).ack;
            reply.mainAck <= s.snd.sendSeq && Bottom(reply) <= s.snd.sendSeq
    ensures s.snd.sendSeq < s.rcv.writeEdge + HARD_WIND
  {
    var r := s.rcv;
    UpdateExact(r.reply, d.seqIndex);
    BottomIsLeastMissing(r.reply);
    ContainedBounds(s.snd.total, r.reply);
    BottomIsLeastMissing(Update(r.reply, d.seqIndex).ack);
    assert !Holds(r.reply, d.seqIndex);
  }

  lemma StoredRing(file: seq<Byte>, r: Rcv, d: Datagram)
    requires ReceiverRing(file, r) && Canonical(r.reply) && IsPacket(file, d.seqIndex, d.data)
    requires InWindow(r.buffer, d.seqIndex) && Update(r.reply, d.seqIndex).accepted
    ensures ReceiverRing(file, r.(reply := Update(r.reply, d.seqIndex).ack,
                                  buffer := Store(r.buffer, d.seqIndex, d.data)))
  {
    UpdateGrows(r.reply, d.seqIndex);
    var t := r.(reply := Update(r.reply, d.seqIndex).ack, buffer := Store(r.buffer, d.seqIndex, d.data));
    forall i: nat | Holds(t.reply, i) && InWindow(t.buffer, i)
      ensures IsPacket(file, i, Cell(t.buffer.mem, i))
    {
      StoreCellFacts(r.buffer.mem, d.seqIndex, d.data, i);
      SameCell(r.buffer, i, d.seqIndex);
    }
  }

  lemma SameCell(w: Ring, i: nat, j: nat)
    requires InWindow(w, i) && InWindow(w, j)
    ensures i % RING == j % RING ==> i == j
  {
  }

  /** Everything below the edge has been accepted, so the block's cells hold the file. */
  lemma FullBlock(file: seq<Byte>, r: Rcv)
    requires RcvOk(r) && r.phase == Receiving && ReceiverRing(file, r) && Canonical(r.reply)
    requires Bottom(r.reply) >= r.writeEdge
    ensures var n, from := WriteLength(r), r.buffer.base * SINGLE_LENGTH;
            from + n <= |file| && Block(r.buffer, n) == file[from..from + n]
  {
    BottomIsLeastMissing(r.reply);
    BlockEnd(r);
    var n, from := WriteLength(r), r.buffer.base * SINGLE_LENGTH;
    forall i: nat | r.buffer.base <= i < r.buffer.base + SLOTS && i * SINGLE_LENGTH < from + n
      ensures IsPacket(file, i, Cell(r.buffer.mem, i))
    {
      InFile(file, i);
      assert Holds(r.reply, i) && InWindow(r.buffer, i);
    }
    BlockIsFile(r.buffer, file, n);
  }

  lemma FlushedRing(file: seq<Byte>, r: Rcv)
    requires RcvOk(r) && r.phase == Receiving && ReceiverRing(file, r) && Canonical(r.reply)
    requires r.writeEdge <= Bottom(r.reply) && r.reply.mainAck <= r.buffer.base + RING
    ensures ReceiverRing(file, Flush(r))
  {
    FullBlock(file, r);
    BlockEnd(r);
    WrittenGrows(file, r.written, r.buffer.base * SINGLE_LENGTH, WriteLength(r));
    BottomIsLeastMissing(r.reply);
    var f := Flush(r);
    forall i: nat | Holds(f.reply, i) && InWindow(f.buffer, i) ensures IsPacket(file, i, Cell(f.buffer.mem, i)) {
      assert InWindow(r.buffer, i);
    }
  }

  lemma WrittenGrows(file: seq<Byte>, written: seq<Byte>, from: nat, n: nat)
    requires from + n <= |file| && written == file[..from]
    ensures written + file[from..from + n] == file[..from + n]
  {
  }

  lemma BlockEnd(r: Rcv)
    requires RcvOk(r) && r.phase == Receiving
    ensures r.buffer.base * SINGLE_LENGTH + WriteLength(r) == Min(r.length, (r.buffer.base + SLOTS) * SINGLE_LENGTH)
    ensures r.buffer.base * SINGLE_LENGTH <= r.length
  {
  }

  lemma DataKeepsReceiver(file: seq<Byte>, s: Sys, d: Datagram)
    requires Inv(file, s) && Enabled(s, DoData(d))
    ensures ReceiverCounts(Apply(file, s, DoData(d)))
    ensures ReceiverRing(file, Apply(file, s, DoData(d)).rcv)
    ensures Contained(s.rcv.reply, Apply(file, s, DoData(d)).rcv.reply)
  {
    var r, t := s.rcv, Apply(file, s, DoData(d)).rcv;
    UpdateGrows(r.reply, d.seqIndex);
    if r.phase == Receiving && Update(r.reply, d.seqIndex).accepted {
      AcceptedBounds(file, s, d);
      StoredRing(file, r, d);
      var reply := Update(r.reply, d.seqIndex).ack;
      if Bottom(reply) >= r.writeEdge {
        FlushedRing(file, r.(reply := reply, buffer := Store(r.buffer, d.seqIndex, d.data)));
      }
    }
  }

  lemma DataKeeps(file: seq<Byte>, s: Sys, d: Datagram)
    requires Inv(file, s) && Enabled(s, DoData(d))
    ensures Inv(file, Apply(file, s, DoData(d)))
  {
    DataKeepsReceiver(file, s, d);
    assert Wire(s.snd.buffer, []) == {};
  }

  lemma StepKeeps(file: seq<Byte>, s: Sys, e: Event)
    requires Inv(file, s) && Enabled(s, e)
    ensures Inv(file, Apply(file, s, e))
  {
    match e
    case DoScan => ScanKeeps(file, s);
    case DoSend => SendKeeps(file, s);
    case DoTimeout => TimeoutKeeps(file, s);
    case DoAck(k) => AckKeeps(file, s, k);
    case DoData(d) => DataKeeps(file, s, d);
    case DoClose =>
    case DoLoseData(d) =>
    case DoLoseAck =>
  }

  /** Only the loss of a datagram can leave a packet without one. */
  lemma StepKeepsIntact(file: seq<Byte>, s: Sys, e: Event)
    requires Inv(file, s) && Intact(s) && Enabled(s, e) && !e.DoLoseData?
    ensures Intact(Apply(file, s, e))
  {
    var t := Apply(file, s, e);
    forall i: nat | i < t.snd.sendSeq ensures SentPacket(t.data, i) {
      if i < s.snd.sendSeq {
        assert SentPacket(s.data, i);
      } else {
        BottomIsLeastMissing(s.snd.total);
        WireKeeps(file, s.snd, [i], i + 1);
        assert i in [i];
        assert SentPacket(Wire(s.snd.buffer, [i]), i);
      }
    }
  }

  lemma {:induction false} RunKeeps(file: seq<Byte>, s: Sys, run: seq<Event>, t: Sys)
    requires Inv(file, s) && Leads(file, s, run, t)
    ensures Inv(file, t)
    decreases |run|
  {
    if run != [] {
      StepKeeps(file, s, run[0]);
      RunKeeps(file, Apply(file, s, run[0]), run[1..], t);
    }
  }

  lemma ReachableInv(file: seq<Byte>, s: Sys)
    requires FileOk(file) && Reachable(file, s)
    ensures Inv(file, s)
  {
    InitialInv(file);
    var run :| Leads(file, Initial(file), run, s);
    RunKeeps(file, Initial(file), run, s);
  }
}
