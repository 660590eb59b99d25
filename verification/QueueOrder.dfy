/** Exactly when the queue of lost packets keeps its order: the runs that break it. */
module QueueOrder {
  import opened AckTable
  import opened FileRing
  import opened Receivers
  import opened Senders
  import opened Protocol
  import opened Invariant
  import opened LostQueue
  import opened Liveness
  import opened Scenarios

  // ----- One timeout is enough -----

  /** Until the first reply the queue is empty. */
  lemma {:induction false} FillKeepsEmpty(file: seq<Byte>, s: Sys)
    requires Inv(file, s) && (s.snd.place == Head || s.snd.place == Gate)
    requires s.snd.lost == [] && !s.snd.isTimeout
    ensures FillWindow(file, s).snd.lost == []
    decreases s.snd.buffer.limit - s.snd.sendSeq, s.snd.place == Head
  {
    if !(s.snd.place == Gate && Blocked(s.snd)) {
      OwnMove(file, s);
      FillWindowStep(file, s);
      AppliedSender(file, s, NextMove(s));
      if s.snd.place == Head {
        ScanOutcome(s.snd);
      }
      hide Apply, FillWindow, Inv, Blocked;
      FillKeepsEmpty(file, Apply(file, s, NextMove(s)));
    }
  }

  /** The first window is out, nothing has been lost yet, and the sender waits. */
  lemma FirstWindow(file: seq<Byte>) returns (s: Sys)
    requires FileOk(file)
    ensures Built(file, 0, s) && Inv(file, s) && Enabled(s, DoTimeout)
    ensures s.snd.lost == [] && s.snd.total == EMPTY && s.snd.sendSeq == SOFT_WIND && s.rcv == Start(|file|)
    ensures s.cursor == 0 && s.acks == []
  {
    Started(file);
    var s0 := Initial(file);
    s := FillWindow(file, s0);
    FillWithin(file, 0, s0);
    FillKeepsEmpty(file, s0);
    InFile(file, RING - 1);
    WaitingSent(file, s);
  }

  /** The queue after a pass over the first window: every packet, to be sent again when the mark is 4 past it. */
  function WindowQueue(): (q: seq<LostPack>)
    ensures |q| == SOFT_WIND
    ensures forall k | 0 <= k < SOFT_WIND :: q[k] == LostPack(k, k + 4)
  {
    seq(SOFT_WIND, k requires 0 <= k < SOFT_WIND => LostPack(k, k + 4))
  }

  lemma WindowOutstanding(s: Snd)
    requires s.total == EMPTY && s.sendSeq == SOFT_WIND && s.lost == [] && s.isTimeout
    ensures ScanQueue(s.total, s.lost, |s.lost|, true).lost + OutstandingPacks(s) == WindowQueue()
  {
  }

  lemma PassWithin(file: seq<Byte>, n: nat, s: Sys)
    requires FileOk(file) && Built(file, n, s) && Inv(file, s) && Enabled(s, DoTimeout)
    ensures Built(file, n + 1, Passed(file, s))
  {
    TimeoutOutcome(file, s);
    hide Inv, Apply, Built;
    BuiltStep(file, n, s, DoTimeout);
    BuiltStep(file, n + 1, Apply(file, s, DoTimeout), DoScan);
  }

  lemma FirstPass(file: seq<Byte>) returns (s: Sys)
    requires FileOk(file)
    ensures Built(file, 1, s) && Inv(file, s) && Enabled(s, DoTimeout)
    ensures s.snd.lost == WindowQueue() && s.snd.total == EMPTY && s.snd.sendSeq == SOFT_WIND
    ensures s.rcv == Start(|file|) && s.cursor == 0 && s.acks == []
  {
    hide Inv, Passed, ScanQueue, OutstandingPacks, Built;
    var r := FirstWindow(file);
    s := Passed(file, r);
    PassOutcome(file, r);
    PassWithin(file, 0, r);
    WindowOutstanding(OnTimeout(r.snd));
  }

  /** Of that window packets 1 to 5 arrive. */
  lemma FiveArrive(file: seq<Byte>, r: Sys) returns (t: Sys)
    requires FileOk(file) && Built(file, 1, r) && r.snd.sendSeq == SOFT_WIND
    requires r.rcv == Start(|file|) && r.cursor == 0 && r.acks == []
    ensures Built(file, 1, t) && t.snd == r.snd && t.rcv.reply == Ack(6, [0])
    ensures t.cursor == 0 && |t.acks| > 0 && t.acks[|t.acks| - 1] == t.rcv.reply
  {
    InFile(file, RING - 1);
    HoleAtZero();
    assert r.rcv.phase == Receiving && r.rcv.reply == EMPTY && 0 < r.rcv.buffer.limit;
    assert Bottom(Ack(2, [0])) == 0;
    hide *;
    var d, u := Arrive(file, 1, r, 1);
    t := ArriveAbove(file, 1, u, 0, 2, 6);
  }

  /** The sender reads the last of the replies. */
  lemma FirstReply(file: seq<Byte>) returns (s: Sys)
    requires FileOk(file)
    ensures Built(file, 1, s) && Inv(file, s) && s.snd.place == Head && !s.snd.isTimeout
    ensures s.snd.total == Ack(6, [0]) && s.snd.lost == WindowQueue() + [LostPack(0, 4)]
  {
    var r := FirstPass(file);
    InFile(file, RING - 1);
    WaitingSent(file, r);
    var v := FiveArrive(file, r);
    assert Answered(v) && Enabled(v, DoTimeout) && Bottom(v.rcv.reply) == 0 && !r.snd.isTimeout;
    FastZero(v.snd);
    hide *;
    s := ReadNewest(file, 1, v);
    NewestQueue(file, v);
  }

  lemma HoleAtZero()
    ensures Update(EMPTY, 1).ack == Ack(2, [0])
  {
    assert [] + Range(0, 1) == [0];
  }

  lemma FastZero(s: Snd)
    requires s.total == EMPTY
    ensures Packs(FastIndices(s, Ack(6, [0])), PlusFour(s.total.mainAck)) == [LostPack(0, 4)]
  {
    assert FastIndices(s, Ack(6, [0])) == [0];
  }

  /** What reading the newest reply does to the queue. */
  lemma NewestQueue(file: seq<Byte>, s: Sys)
    requires Inv(file, s) && Enabled(s, DoTimeout) && Answered(s)
    ensures var t := LastReply(file, s).snd;
            && t.isTimeout == s.snd.isTimeout
            && t.lost == s.snd.lost + Packs(FastIndices(s.snd, s.rcv.reply), PlusFour(s.snd.total.mainAck))
  {
    hide Inv, Apply, OnAck, LastReply, SysOk, FastIndices;
    LastReplyStep(file, s);
    AppliedSender(file, s, DoAck(|s.acks| - 1));
    AckQueue(file, s, |s.acks| - 1);
  }

  lemma NotLater(q: seq<LostPack>, mark: nat, k: nat)
    requires k < |q| && q[k].triggerAck <= mark
    ensures !AllLater(q, mark)
  {
  }

  /** Packet 0 is due again, but the scan stops at packet 3 before it gets there. */
  lemma ScanMisses(total: Ack, lost: seq<LostPack>)
    requires total == Ack(6, [0]) && lost == WindowQueue() + [LostPack(0, 4)]
    ensures ScanQueue(total, lost, |lost|, false).lost == lost[3..] + [LostPack(0, 10)]
  {
    var a := lost[1..] + [LostPack(0, 10)];
    var b := a[1..];
    var c := b[1..];
    assert lost[0] == LostPack(0, 4) && a[0] == LostPack(1, 5) && b[0] == LostPack(2, 6) && c[0] == LostPack(3, 7);
    assert ScanQueue(total, c, 13, false).lost == c;
    assert ScanQueue(total, b, 14, false).lost == c;
    assert ScanQueue(total, a, 15, false).lost == c;
    assert ScanQueue(total, lost, 16, false).lost == ScanQueue(total, a, 15, false).lost;
    assert c == lost[3..] + [LostPack(0, 10)];
  }

  /** One timeout and then one reply break the order in every respect: after the scan a due entry
      stands behind one that is not, and packet 0 is queued twice. */
  lemma OneTimeoutDisorders(file: seq<Byte>) returns (t: Sys)
    requires FileOk(file)
    ensures ReachableWithin(file, 1, t) && t.snd.place == Gate
    ensures !ByTrigger(t.snd.lost) && !NoRepeats(t.snd.lost) && !AllLater(t.snd.lost, t.snd.total.mainAck)
  {
    var s := FirstReply(file);
    t := Apply(file, s, DoScan);
    BuiltStep(file, 1, s, DoScan);
    AppliedSender(file, s, DoScan);
    ScanOutcome(s.snd);
    ScanMisses(s.snd.total, s.snd.lost);
    var q := t.snd.lost;
    assert q[11] == LostPack(14, 18) && q[12] == LostPack(0, 4) && q[13] == LostPack(0, 10);
    NotLater(q, 6, 12);
  }

  // ----- A trigger that wraps -----

  /** In a file of 2^32 - 4 packets or more all but one arrive; the last mark makes the trigger of the
      missing one wrap, and it is due at once. */
  lemma TriggerWraps(file: seq<Byte>) returns (t: Sys)
    requires FileOk(file) && !TriggersFit(PacketCount(|file|))
    ensures ReachableWithin(file, 0, t) && t.snd.place == Gate
    ensures !AllLater(t.snd.lost, t.snd.total.mainAck)
  {
    var count := PacketCount(|file|);
    var j: nat := count - HARD_WIND;
    var s := AllButOne(file, j);
    ReachableInv(file, s);
    QueueIsOrdered(file, s);
    WaitingSent(file, s);
    ReplyBounds(file, s, |s.acks| - 1);
    NewestQueue(file, s);
    var u := ReadNewest(file, 0, s);
    t := Apply(file, u, DoScan);
    BuiltStep(file, 0, u, DoScan);
    AppliedSender(file, u, DoScan);
    ScanOutcome(u.snd);
    DueAfter(s.snd.lost, FastIndices(s.snd, s.rcv.reply), s.snd.total.mainAck, count);
    WrappedScan(u.snd, j);
  }

  lemma DueAfter(lost: seq<LostPack>, fast: seq<nat>, mark: nat, newMark: nat)
    requires Below(lost, mark) && mark + 4 <= newMark
    ensures var q := lost + Packs(fast, PlusFour(mark));
            forall k | 0 <= k < |q| :: q[k].triggerAck <= newMark
  {
  }

  /** When everything in the queue is due, a scan with a mark near 2^32 leaves it due. */
  lemma WrappedScan(s: Snd, j: nat)
    requires SenderCounts(s) && SenderQueue(s) && !TriggersFit(s.total.mainAck) && j in s.total.naks
    requires s.total.mainAck <= 0xFFFF_FFFF
    requires forall k | 0 <= k < |s.lost| :: s.lost[k].triggerAck <= s.total.mainAck
    ensures !AllLater(ScanQueue(s.total, s.lost, |s.lost|, false).lost, s.total.mainAck)
  {
    FullScanTriggers(s.total, s.lost, |s.lost|, false);
    ScanQueueFacts(s.total, s.lost, |s.lost|, false, s.sendSeq);
    assert InQueue(s.lost, j);
    var q := ScanQueue(s.total, s.lost, |s.lost|, false).lost;
    var k :| 0 <= k < |q| && q[k].seqIndex == j;
    NotLater(q, s.total.mainAck, k);
  }

  /** The order the early exit of the scan relies on holds in all states reached with at most n timeouts
      exactly when n is 0 and the file has fewer than 2^32 - 4 packets. */
  lemma OrderIff(file: seq<Byte>, n: nat)
    requires FileOk(file)
    ensures (forall t | ReachableWithin(file, n, t) :: QueueInOrder(t.snd))
       <==> n == 0 && TriggersFit(PacketCount(|file|))
  {
    if n == 0 && TriggersFit(PacketCount(|file|)) {
      forall t | ReachableWithin(file, n, t) ensures QueueInOrder(t.snd) {
        QueueIsOrdered(file, t);
      }
    } else if n > 0 {
      var t := OneTimeoutDisorders(file);
      WithinMore(file, 1, n, t);
    } else {
      var t := TriggerWraps(file);
    }
  }

  lemma WithinMore(file: seq<Byte>, m: nat, n: nat, t: Sys)
    requires FileOk(file) && m <= n && ReachableWithin(file, m, t)
    ensures ReachableWithin(file, n, t)
  {
    var run :| Leads(file, Initial(file), run, t) && Timeouts(run) <= m;
  }
}
