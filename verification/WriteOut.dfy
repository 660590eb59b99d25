/** From which states the whole file can still be written. */
module WriteOut {
  import opened AckTable
  import opened FileRing
  import opened Receivers
  import opened Senders
  import opened Protocol
  import opened Invariant
  import opened Safety
  import opened Liveness
  import opened Scenarios
  import opened Completion

  /** The first packet of the last block. */
  function LastBlock(count: nat): nat {
    count - count % SLOTS
  }

  /** Some packet of the last block has not been accepted. */
  ghost predicate TailMissing(r: Rcv) {
    exists i: nat :: LastBlock(r.buffer.limit) <= i < r.buffer.limit && !Holds(r.reply, i)
  }

  ghost predicate Writable(file: seq<Byte>, s: Sys)
    requires SysOk(file, s)
  {
    exists t :: Reaches(file, s, t) && t.rcv.written == file
  }

  lemma LastBase(base: nat, limit: nat)
    requires base % SLOTS == 0 && base < limit && limit % SLOTS != 0
    ensures base <= LastBlock(limit) < limit
    ensures base + SLOTS > LastBlock(limit) ==> base == LastBlock(limit) && base + SLOTS > limit
  {
    var x := limit - base;
    SameRemainder(base, x);
    assert (base + x) % SLOTS == x % SLOTS;
    assert LastBlock(limit) == base + (x - x % SLOTS);
  }

  // ----- A complete last block dooms the tail -----

  ghost predicate Doomed(file: seq<Byte>, r: Rcv) {
    r.phase == Receiving && !TailFits(r.buffer.limit) && !TailMissing(r)
  }

  lemma DoomedStep(file: seq<Byte>, s: Sys, d: Datagram)
    requires Inv(file, s) && Doomed(file, s.rcv) && Enabled(s, DoData(d))
    ensures Doomed(file, Apply(file, s, DoData(d)).rcv)
  {
    var r, t := s.rcv, Apply(file, s, DoData(d)).rcv;
    UpdateGrows(r.reply, d.seqIndex);
    LastBase(r.buffer.base, r.buffer.limit);
    BottomIsLeastMissing(r.reply);
    if Update(r.reply, d.seqIndex).accepted {
      AcceptedBounds(file, s, d);
    }
  }

  lemma {:induction false} DoomedForever(file: seq<Byte>, s: Sys, run: seq<Event>, t: Sys)
    requires Inv(file, s) && Doomed(file, s.rcv) && Leads(file, s, run, t)
    ensures t.rcv.written != file
    decreases |run|
  {
    if run == [] {
      InFile(file, s.rcv.buffer.base);
    } else {
      StepKeeps(file, s, run[0]);
      if run[0].DoData? {
        DoomedStep(file, s, run[0].d);
      }
      DoomedForever(file, Apply(file, s, run[0]), run[1..], t);
    }
  }

  // ----- Otherwise: always the least missing packet first -----

  /** Once the least missing packet is in the last block, accepting it leaves a later one missing or ends
      the main loop. */
  lemma LastBlockStep(file: seq<Byte>, s: Sys, d: Datagram)
    requires Inv(file, s) && Enabled(s, DoData(d)) && !TailFits(s.rcv.buffer.limit)
    requires s.rcv.phase == Receiving && Update(s.rcv.reply, d.seqIndex).accepted
    requires LastBlock(s.rcv.buffer.limit) <= Bottom(s.rcv.reply) < s.rcv.buffer.limit
    ensures var t := Apply(file, s, DoData(d)).rcv;
            t.phase == Receiving ==> Bottom(t.reply) < t.buffer.limit
  {
    AcceptedBounds(file, s, d);
    LastBase(s.rcv.buffer.base, s.rcv.buffer.limit);
    hide Store, StoreCell, Block, Update, Bottom, LastBlock, ReceiverRing, SenderRing, AcksInv, ChannelInv;
  }

  /** A packet at or below the least missing one arrives: then the last block still lacks a packet, or
      the file is written. */
  lemma LowKeeps(file: seq<Byte>, s: Sys, d: Datagram)
    requires Inv(file, s) && Enabled(s, DoData(d)) && !TailFits(s.rcv.buffer.limit)
    requires s.rcv.phase == Receiving && TailMissing(s.rcv) && d.seqIndex <= Bottom(s.rcv.reply)
    ensures var t := Apply(file, s, DoData(d)).rcv;
            t.phase == Receiving ==> TailMissing(t)
  {
    var r, t := s.rcv, Apply(file, s, DoData(d)).rcv;
    BottomIsLeastMissing(r.reply);
    UpdateGrows(r.reply, d.seqIndex);
    DataOutcome(file, s, d);
    var last := LastBlock(r.buffer.limit);
    var i: nat :| last <= i < r.buffer.limit && !Holds(r.reply, i);
    if t.phase == Receiving {
      if !Update(r.reply, d.seqIndex).accepted || d.seqIndex < last {
        assert !Holds(t.reply, i);
      } else {
        LastBlockStep(file, s, d);
        BottomIsLeastMissing(t.reply);
        assert !Holds(t.reply, Bottom(t.reply));
      }
    }
  }

  lemma DataOutcome(file: seq<Byte>, s: Sys, d: Datagram)
    requires Inv(file, s) && Enabled(s, DoData(d)) && s.rcv.phase == Receiving
    ensures var t := Apply(file, s, DoData(d)).rcv;
            t.reply == Update(s.rcv.reply, d.seqIndex).ack && t.buffer.limit == s.rcv.buffer.limit
  {
    UpdateGrows(s.rcv.reply, d.seqIndex);
    hide Update, Inv;
  }

  /** The receiver holds what has been sent and the sender can read so, or the file is written. */
  ghost predicate CaughtUp(s: Sys) {
    s.rcv.phase == Receiving ==>
      TailMissing(s.rcv) && Bottom(s.rcv.reply) >= s.snd.sendSeq && Answered(s)
  }

  /** Of every packet sent and not acknowledged some datagram is not lost. */
  ghost predicate OnWire(s: Sys) {
    forall i: nat | i < s.snd.sendSeq && !Holds(s.snd.total, i) :: SentPacket(s.data, i)
  }

  /** Packet i, not acknowledged and at or below the least the receiver misses, arrives. */
  lemma DeliverLow(file: seq<Byte>, s: Sys, i: nat) returns (t: Sys)
    requires Inv(file, s) && !TailFits(s.rcv.buffer.limit) && s.rcv.phase == Receiving && TailMissing(s.rcv)
    requires OnWire(s) && i < s.snd.sendSeq && !Holds(s.snd.total, i) && i <= Bottom(s.rcv.reply)
    ensures Inv(file, t) && Reaches(file, s, t) && t.snd == s.snd && t.cursor == s.cursor && OnWire(t)
    ensures t.rcv.buffer.limit == s.rcv.buffer.limit && Answered(t)
    ensures t.rcv.phase == Receiving ==> TailMissing(t.rcv)
    ensures Bottom(s.rcv.reply) <= Bottom(t.rcv.reply) && i < Bottom(t.rcv.reply)
  {
    assert SentPacket(s.data, i);
    var d :| d in s.data && d.seqIndex == i;
    t := Apply(file, s, DoData(d));
    Delivered(file, s, d);
    LowKeeps(file, s, d);
    DataOutcome(file, s, d);
    BottomMoves(file, s, d);
    ContainedBounds(s.rcv.reply, t.rcv.reply);
  }

  /** The least packet the receiver misses is one the sender holds no acknowledgement for. */
  lemma LeastUnacked(file: seq<Byte>, s: Sys)
    requires Inv(file, s)
    ensures !Holds(s.snd.total, Bottom(s.rcv.reply)) && !Holds(s.snd.total, Bottom(s.snd.total))
    ensures Bottom(s.snd.total) <= Bottom(s.rcv.reply)
  {
    BottomIsLeastMissing(s.rcv.reply);
    BottomIsLeastMissing(s.snd.total);
    ContainedBounds(s.snd.total, s.rcv.reply);
  }

  lemma {:induction false} CatchUp(file: seq<Byte>, s: Sys) returns (t: Sys)
    requires Inv(file, s) && !TailFits(s.rcv.buffer.limit) && s.rcv.phase == Receiving && TailMissing(s.rcv)
    requires Answered(s) && OnWire(s)
    ensures Inv(file, t) && Reaches(file, s, t) && t.snd == s.snd
    ensures t.rcv.buffer.limit == s.rcv.buffer.limit && CaughtUp(t)
    decreases s.snd.sendSeq - Bottom(s.rcv.reply)
  {
    ReachesSelf(file, s);
    t := s;
    hide Inv, Reaches, TailMissing, TailFits, Bottom, OnWire, Holds;
    if Bottom(s.rcv.reply) < s.snd.sendSeq {
      LeastUnacked(file, s);
      var u := DeliverLow(file, s, Bottom(s.rcv.reply));
      t := u;
      if u.rcv.phase == Receiving {
        t := CatchUp(file, u);
        ReachesOn(file, s, u, t);
      }
    }
  }

  /** A timeout pass puts everything unacknowledged on the wire. */
  lemma PassOnWire(file: seq<Byte>, s: Sys)
    requires Inv(file, s) && Enabled(s, DoTimeout)
    ensures OnWire(AfterPass(file, s))
  {
    TimeoutResendsUnacked(file, s);
    var t, indices := AfterPass(file, s), ScanIndices(OnTimeout(s.snd));
    forall i: nat | i < t.snd.sendSeq && !Holds(t.snd.total, i) ensures SentPacket(t.data, i) {
      assert i in indices;
      var k :| 0 <= k < |indices| && indices[k] == i;
      assert PassDatagrams(s)[k] in PassDatagrams(s);
    }
  }

  /** After a timeout pass all that has been sent arrives, the least missing packet first. */
  lemma AllArrives(file: seq<Byte>, s: Sys) returns (t: Sys)
    requires Inv(file, s) && !TailFits(s.rcv.buffer.limit) && s.rcv.phase == Receiving && TailMissing(s.rcv)
    requires Enabled(s, DoTimeout)
    ensures Inv(file, t) && Reaches(file, s, t) && t.snd == AfterPass(file, s).snd
    ensures t.rcv.buffer.limit == s.rcv.buffer.limit && CaughtUp(t)
  {
    var p := AfterPass(file, s);
    PassOnWire(file, s);
    LeastUnacked(file, p);
    assert Bottom(p.snd.total) < p.snd.sendSeq by {
      BottomIsLeastMissing(p.snd.total);
    }
    hide Inv, Reaches, CaughtUp, OnWire, AfterPass, TailMissing, TailFits, Bottom;
    var u := DeliverLow(file, p, Bottom(p.snd.total));
    ReachesOn(file, s, p, u);
    t := u;
    if u.rcv.phase == Receiving {
      t := CatchUp(file, u);
      ReachesOn(file, s, u, t);
    } else {
      Done(u);
    }
  }

  lemma Done(s: Sys)
    requires s.rcv.phase != Receiving
    ensures CaughtUp(s)
  {
  }

  lemma CaughtUpCounts(file: seq<Byte>, s: Sys)
    requires Inv(file, s) && CaughtUp(s) && s.rcv.phase == Receiving
    ensures s.snd.sendSeq == Bottom(s.rcv.reply) == s.rcv.reply.mainAck < s.snd.buffer.limit == PacketCount(|file|)
  {
    BottomIsLeastMissing(s.rcv.reply);
  }

  lemma WindowOpens(file: seq<Byte>, s: Sys)
    requires Inv(file, s) && Blocked(s.snd) && s.snd.total.mainAck == Bottom(s.snd.total) < s.snd.buffer.limit
    ensures s.snd.sendSeq > s.snd.total.mainAck
  {
  }

  /** The transfer goes on in this order until the file is written. */
  lemma {:induction false} GoOn(file: seq<Byte>, s: Sys) returns (t: Sys)
    requires Inv(file, s) && !TailFits(PacketCount(|file|)) && Enabled(s, DoTimeout)
    requires s.rcv.phase == Receiving && TailMissing(s.rcv)
    ensures Inv(file, t) && Reaches(file, s, t) && t.rcv.phase != Receiving
    decreases s.snd.buffer.limit - s.snd.sendSeq
  {
    t := AllArrives(file, s);
    if t.rcv.phase == Receiving {
      var c := t;
      CaughtUpCounts(file, c);
      LastReplyRead(file, c);
      LastReplyReaches(file, c);
      var d := LastReply(file, c);
      var u := FillWindow(file, d);
      WindowOpens(file, u);
      hide Inv, Reaches, LastReply, FillWindow, TailMissing, TailFits;
      ReachesOn(file, s, c, d);
      ReachesOn(file, s, d, u);
      t := GoOn(file, u);
      ReachesOn(file, s, u, t);
    }
  }

  /** In a reachable state the whole file can still be written exactly when the receiver has left its
      main loop, or the last block fits, or the receiver still lacks a packet of the last block. */
  lemma WritableIff(file: seq<Byte>, s: Sys)
    requires FileOk(file) && Reachable(file, s)
    ensures Writable(file, s) <==>
              s.rcv.phase != Receiving || TailFits(PacketCount(|file|)) || TailMissing(s.rcv)
  {
    ReachableInv(file, s);
    if s.rcv.phase != Receiving {
      WrittenIsFile(file, s);
      ReachesSelf(file, s);
    } else if TailFits(PacketCount(|file|)) {
      var t := TransferCompletes(file, s);
    } else if TailMissing(s.rcv) {
      SenderViewIsSound(file, s);
      var u := FillWindow(file, s);
      var t := GoOn(file, u);
      ReachesOn(file, s, u, t);
      Extend(file, s, t);
      WrittenIsFile(file, t);
    } else {
      forall t | Reaches(file, s, t) ensures t.rcv.written != file {
        var run :| Leads(file, s, run, t);
        DoomedForever(file, s, run, t);
      }
    }
  }
}
