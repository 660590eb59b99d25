/** What holds in every reachable state of the protocol. */
module Safety {
  import opened AckTable
  import opened FileRing
  import opened Receivers
  import opened Senders
  import opened Protocol
  import opened Invariant

  /** The receiver has always written a prefix of the file, whole blocks of it, and once it has
      left its main loop it has written the whole file and nothing else. */
  lemma WrittenIsFile(file: seq<Byte>, s: Sys)
    requires FileOk(file) && Reachable(file, s)
    ensures s.rcv.written == file[..Min(|file|, s.rcv.buffer.base * SINGLE_LENGTH)]
    ensures s.rcv.phase != Receiving ==> s.rcv.written == file
  {
    ReachableInv(file, s);
    if s.rcv.phase != Receiving {
      InFile(file, s.rcv.buffer.base);
      assert file[..|file|] == file;
    }
  }

  /** Every datagram ever sent carries the packet of its index. */
  lemma DatagramsCarryFile(file: seq<Byte>, s: Sys, d: Datagram)
    requires FileOk(file) && Reachable(file, s) && d in s.data
    ensures d.seqIndex < PacketCount(|file|) && IsPacket(file, d.seqIndex, d.data)
  {
    ReachableInv(file, s);
  }

  /** No assertion of the window fails on either side, whatever happens next. Nothing the
      receiver has accepted and not yet written is overwritten, and nothing the sender may still
      have to resend is refilled. */
  lemma WindowsAreSafe(file: seq<Byte>, s: Sys, e: Event)
    requires FileOk(file) && Reachable(file, s) && Enabled(s, e)
    ensures AllInWindow(s.snd.buffer, SentBy(s, e))
    ensures e.DoData? && s.rcv.phase == Receiving ==> StoreSafe(s.rcv, e.d.seqIndex)
    ensures Aligned(s.snd.buffer) && Aligned(s.rcv.buffer)
    ensures var t := Apply(file, s, e);
            && t.snd.place != Failed
            && t.rcv.phase != Phase.Aborted
            && (forall i: nat | Holds(s.rcv.reply, i) && i >= t.rcv.buffer.base ::
                  InWindow(t.rcv.buffer, i) && Cell(t.rcv.buffer.mem, i) == Cell(s.rcv.buffer.mem, i))
            && (t.snd.place != Returned ==>
                  forall i: nat | i < t.snd.sendSeq && !Holds(t.snd.total, i) ::
                    InWindow(t.snd.buffer, i) && IsPacket(file, i, Cell(t.snd.buffer.mem, i)))
  {
    ReachableInv(file, s);
    StepKeeps(file, s, e);
    var t := Apply(file, s, e);
    match e {
      case DoScan => ScanInWindow(s.snd);
      case DoSend => BottomIsLeastMissing(s.snd.total);
      case DoAck(k) => FastInWindow(file, s, k);
      case DoData(d) =>
        if s.rcv.phase == Receiving && Update(s.rcv.reply, d.seqIndex).accepted {
          AcceptedBounds(file, s, d);
        }
      case _ =>
    }
    if t.snd.place != Returned {
      forall i: nat | i < t.snd.sendSeq && !Holds(t.snd.total, i) ensures InWindow(t.snd.buffer, i) {
        UnackedInWindow(t.snd, i);
      }
    }
    forall i: nat | Holds(s.rcv.reply, i) && i >= t.rcv.buffer.base
      ensures InWindow(t.rcv.buffer, i) && Cell(t.rcv.buffer.mem, i) == Cell(s.rcv.buffer.mem, i)
    {
      UnwrittenKept(file, s, e, i);
    }
  }

  lemma UnwrittenKept(file: seq<Byte>, s: Sys, e: Event, i: nat)
    requires Inv(file, s) && Enabled(s, e) && Holds(s.rcv.reply, i)
    requires i >= Apply(file, s, e).rcv.buffer.base
    ensures var t := Apply(file, s, e);
            InWindow(t.rcv.buffer, i) && Cell(t.rcv.buffer.mem, i) == Cell(s.rcv.buffer.mem, i)
  {
    var t := Apply(file, s, e);
    StepKeeps(file, s, e);
    HeldInWindow(file, s, i);
    if e.DoData? && s.rcv.phase == Receiving && Update(s.rcv.reply, e.d.seqIndex).accepted {
      AcceptedBounds(file, s, e.d);
      StoreCellFacts(s.rcv.buffer.mem, e.d.seqIndex, e.d.data, i);
      SameCell(s.rcv.buffer, i, e.d.seqIndex);
    }
  }

  lemma HeldInWindow(file: seq<Byte>, s: Sys, i: nat)
    requires Inv(file, s) && Holds(s.rcv.reply, i) && i >= s.rcv.buffer.base
    ensures InWindow(s.rcv.buffer, i)
  {
    ContainedBounds(s.snd.total, s.rcv.reply);
    BottomIsLeastMissing(s.rcv.reply);
  }

  // ----- What the sender knows -----

  /** The sender's record is a part of the receiver's; when the sender returns, the receiver holds
      every packet of the file. */
  lemma SenderViewIsSound(file: seq<Byte>, s: Sys)
    requires FileOk(file) && Reachable(file, s)
    ensures Contained(s.snd.total, s.rcv.reply)
    ensures Bottom(s.snd.total) <= Bottom(s.rcv.reply)
    ensures s.snd.place == Returned ==> forall i: nat | i < PacketCount(|file|) :: Holds(s.rcv.reply, i)
  {
    ReachableInv(file, s);
    ContainedBounds(s.snd.total, s.rcv.reply);
    BottomIsLeastMissing(s.rcv.reply);
  }

  /** Along any run both records only grow, and so does the written prefix. */
  lemma {:induction false} ViewsGrow(file: seq<Byte>, s: Sys, run: seq<Event>, t: Sys)
    requires Inv(file, s) && Leads(file, s, run, t)
    ensures Contained(s.snd.total, t.snd.total) && Contained(s.rcv.reply, t.rcv.reply)
    ensures s.snd.sendSeq <= t.snd.sendSeq
    ensures s.rcv.written <= t.rcv.written
    decreases |run|
  {
    if run != [] {
      var u := Apply(file, s, run[0]);
      StepKeeps(file, s, run[0]);
      StepGrows(file, s, run[0]);
      ViewsGrow(file, u, run[1..], t);
    }
  }

  lemma StepGrows(file: seq<Byte>, s: Sys, e: Event)
    requires Inv(file, s) && Enabled(s, e)
    ensures var t := Apply(file, s, e);
            && Contained(s.snd.total, t.snd.total) && Contained(s.rcv.reply, t.rcv.reply)
            && s.snd.sendSeq <= t.snd.sendSeq
            && s.rcv.written <= t.rcv.written
  {
    match e {
      case DoAck(k) => AckKeepsSender(file, s, k);
      case DoData(d) => DataKeepsReceiver(file, s, d);
      case _ =>
    }
  }

  // ----- Retransmission -----

  /** A timeout pass sends exactly the packets that were sent and are not known to be received. */
  lemma TimeoutResendsUnacked(file: seq<Byte>, s: Sys)
    requires Inv(file, s) && Enabled(s, DoTimeout)
    ensures var t := Apply(file, s, DoTimeout);
            && Enabled(t, DoScan)
            && forall i: nat :: i in SentBy(t, DoScan) <==> i < s.snd.sendSeq && !Holds(s.snd.total, i)
  {
    var t := OnTimeout(s.snd);
    var q := ScanQueue(t.total, t.lost, |t.lost|, true);
    ScanQueueFacts(t.total, t.lost, |t.lost|, true, t.sendSeq);
    FullScanResends(t.total, t.lost, |t.lost|);
    forall i: nat ensures i in ScanIndices(t) <==> i < t.sendSeq && !Holds(t.total, i) {
      assert i in ScanIndices(t) <==> i in q.resent || i in Outstanding(t);
      if i < t.sendSeq && !Holds(t.total, i) && i < t.total.mainAck {
        var k :| 0 <= k < |t.lost| && t.lost[k].seqIndex == i;
      }
    }
  }

  lemma {:induction false} FullScanResends(total: Ack, lost: seq<LostPack>, count: nat)
    requires count <= |lost|
    ensures forall k | 0 <= k < count && !Holds(total, lost[k].seqIndex) ::
              lost[k].seqIndex in ScanQueue(total, lost, count, true).resent
    decreases count
  {
    if count != 0 {
      var rest := if Holds(total, lost[0].seqIndex) then lost[1..]
                  else lost[1..] + [LostPack(lost[0].seqIndex, PlusFour(total.mainAck))];
      FullScanResends(total, rest, count - 1);
      forall k | 0 <= k < count && !Holds(total, lost[k].seqIndex)
        ensures lost[k].seqIndex in ScanQueue(total, lost, count, true).resent
      {
        if k > 0 {
          assert rest[k - 1] == lost[k];
        }
      }
    }
  }

  /** Every hole the sender knows of is queued, in every reachable state. */
  lemma HolesAreQueued(file: seq<Byte>, s: Sys, n: nat)
    requires FileOk(file) && Reachable(file, s) && n in s.snd.total.naks
    ensures InQueue(s.snd.lost, n)
  {
    ReachableInv(file, s);
  }

  // ----- Capacity of the NAK table -----

  /** The two windows cap the holes below any sent packet at 18, two more than the table has
      slots for; while the sender's last reply shows at most two holes, nothing new is refused. */
  lemma HolesInFlight(file: seq<Byte>, s: Sys, i: nat)
    requires FileOk(file) && Reachable(file, s) && i < s.snd.sendSeq
    ensures |Missing(Received(s.rcv.reply), i)| <= 18
    ensures |s.snd.total.naks| <= 2 && !Holds(s.rcv.reply, i) ==> Update(s.rcv.reply, i).accepted
  {
    ReachableInv(file, s);
    var a, b := s.snd.total, s.rcv.reply;
    assert Missing(Received(b), i) <= Missing(Received(a), i);
    SubsetSize(Missing(Received(b), i), Missing(Received(a), i));
    HolesBelow(a, i);
    if |a.naks| > 0 {
      HoleSpan(a);
    }
    AcceptedIffHolesFit(b, i);
  }

  lemma HoleSpan(a: Ack)
    requires Shaped(a) && |a.naks| > 0
    ensures a.naks[0] + |a.naks| < a.mainAck
  {
    IncreasingSteps(a.naks, |a.naks| - 1);
    assert a.naks[|a.naks| - 1] in a.naks;
  }

  lemma {:induction false} IncreasingSteps(s: seq<nat>, k: nat)
    requires Increasing(s) && k < |s|
    ensures s[0] + k <= s[k]
  {
    if k > 0 {
      IncreasingSteps(s, k - 1);
    }
  }
}
