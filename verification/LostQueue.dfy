/** The order of the queue of lost packets: what keeps it, and what a timeout does to it. */
module LostQueue {
  import opened AckTable
  import opened FileRing
  import opened Senders
  import opened Protocol
  import opened Invariant

  /** No mark of the file makes the 32-bit sum of a trigger wrap. */
  predicate TriggersFit(count: nat) {
    count < 0xFFFF_FFFC
  }

  ghost predicate ByTrigger(lost: seq<LostPack>) {
    forall j, k | 0 <= j < k < |lost| :: lost[j].triggerAck <= lost[k].triggerAck
  }

  ghost predicate NoRepeats(lost: seq<LostPack>) {
    forall j, k | 0 <= j < k < |lost| :: lost[j].seqIndex != lost[k].seqIndex
  }

  /** Entries lie below `mark`, with triggers up to `mark + 4`. */
  ghost predicate Below(lost: seq<LostPack>, mark: nat) {
    forall k | 0 <= k < |lost| :: lost[k].seqIndex < mark && lost[k].triggerAck <= mark + 4
  }

  ghost predicate Ordered(lost: seq<LostPack>, mark: nat) {
    ByTrigger(lost) && NoRepeats(lost) && Below(lost, mark)
  }

  ghost predicate AllLater(lost: seq<LostPack>, mark: nat) {
    forall k | 0 <= k < |lost| :: lost[k].triggerAck > mark
  }

  lemma TailOrdered(lost: seq<LostPack>, mark: nat)
    requires lost != [] && Ordered(lost, mark)
    ensures Ordered(lost[1..], mark)
  {
  }

  lemma TurnedOrdered(lost: seq<LostPack>, mark: nat)
    requires lost != [] && Ordered(lost, mark) && TriggersFit(mark)
    ensures Ordered(lost[1..] + [LostPack(lost[0].seqIndex, PlusFour(mark))], mark)
  {
  }

  /** A scan keeps the order and leaves only triggers above the mark: its break at the front
      misses no entry that is due. */
  lemma {:induction false} ScanKeepsOrder(total: Ack, lost: seq<LostPack>, count: nat)
    requires count <= |lost| && Ordered(lost, total.mainAck) && TriggersFit(total.mainAck)
    requires forall k | count <= k < |lost| :: lost[k].triggerAck == PlusFour(total.mainAck)
    ensures var r := ScanQueue(total, lost, count, false);
            Ordered(r.lost, total.mainAck) && AllLater(r.lost, total.mainAck)
    decreases count
  {
    if count != 0 && total.mainAck >= lost[0].triggerAck {
      if Holds(total, lost[0].seqIndex) {
        TailOrdered(lost, total.mainAck);
        ScanKeepsOrder(total, lost[1..], count - 1);
      } else {
        TurnedOrdered(lost, total.mainAck);
        ScanKeepsOrder(total, lost[1..] + [LostPack(lost[0].seqIndex, PlusFour(total.mainAck))], count - 1);
      }
    }
  }

  lemma {:induction false} AtOrAboveKeepsOrder(naks: seq<nat>, mark: nat)
    requires Increasing(naks)
    ensures Increasing(AtOrAbove(naks, mark))
  {
    if naks != [] {
      var front, last := naks[..|naks| - 1], naks[|naks| - 1];
      AtOrAboveKeepsOrder(front, mark);
      var r := AtOrAbove(front, mark);
      assert forall k | 0 <= k < |r| :: r[k] in r;
    }
  }

  lemma AckKeepsOrder(s: Snd, reply: Ack)
    requires Ordered(s.lost, s.total.mainAck)
    requires Canonical(reply) && s.total.mainAck <= reply.mainAck && TriggersFit(s.total.mainAck)
    ensures Ordered(s.lost + Packs(FastIndices(s, reply), PlusFour(s.total.mainAck)), reply.mainAck)
  {
    AtOrAboveKeepsOrder(reply.naks, s.total.mainAck);
    var fast := FastIndices(s, reply);
    assert forall k | 0 <= k < |fast| :: fast[k] in fast;
  }

  /** What the queue must be for the early exit of the scan to miss nothing: sorted by trigger, without
      repetition, and after a scan with nothing due. */
  ghost predicate QueueInOrder(s: Snd) {
    && ByTrigger(s.lost) && NoRepeats(s.lost)
    && (s.place == Gate ==> AllLater(s.lost, s.total.mainAck))
  }

  /** No timeout is pending, and no entry reaches beyond the mark. */
  ghost predicate Calm(s: Snd) {
    !s.isTimeout && Below(s.lost, s.total.mainAck)
  }

  /** Without a timeout a scan keeps the entries below the mark. */
  lemma {:induction false} ScanKeepsBelow(total: Ack, lost: seq<LostPack>, count: nat)
    requires count <= |lost| && Below(lost, total.mainAck)
    ensures Below(ScanQueue(total, lost, count, false).lost, total.mainAck)
    decreases count
  {
    if count != 0 && total.mainAck >= lost[0].triggerAck {
      if Holds(total, lost[0].seqIndex) {
        ScanKeepsBelow(total, lost[1..], count - 1);
      } else {
        ScanKeepsBelow(total, lost[1..] + [LostPack(lost[0].seqIndex, PlusFour(total.mainAck))], count - 1);
      }
    }
  }

  lemma ScanOutcome(s: Snd)
    requires SenderCounts(s) && SenderQueue(s) && s.place == Head && !s.isTimeout
    ensures Scan(s) == s.(lost := ScanQueue(s.total, s.lost, |s.lost|, false).lost, place := Gate)
  {
    ScanInWindow(s);
    var q := ScanQueue(s.total, s.lost, |s.lost|, false);
    assert q.lost + OutstandingPacks(s) == q.lost;
  }

  lemma AckKeepsBelow(s: Snd, reply: Ack)
    requires Below(s.lost, s.total.mainAck)
    requires Canonical(reply) && s.total.mainAck <= reply.mainAck
    ensures Below(s.lost + Packs(FastIndices(s, reply), PlusFour(s.total.mainAck)), reply.mainAck)
  {
    var fast := FastIndices(s, reply);
    assert forall k | 0 <= k < |fast| :: fast[k] in fast;
  }

  lemma AckQueue(file: seq<Byte>, s: Sys, k: nat)
    requires Inv(file, s) && Enabled(s, DoAck(k))
    ensures var t := OnAck(s.snd, s.acks[k], file);
            && t.total == s.acks[k] && t.isTimeout == s.snd.isTimeout && (t.place == Head || t.place == Returned)
            && t.lost == s.snd.lost + Packs(FastIndices(s.snd, s.acks[k]), PlusFour(s.snd.total.mainAck))
  {
    AckOutcome(file, s, k);
    hide OnAck, FastIndices;
  }

  lemma StepKeepsCalm(file: seq<Byte>, s: Sys, e: Event)
    requires Inv(file, s) && Enabled(s, e) && Calm(s.snd) && !e.DoTimeout?
    ensures Calm(Apply(file, s, e).snd)
  {
    AppliedSender(file, s, e);
    match e {
      case DoScan =>
        ScanKeepsBelow(s.snd.total, s.snd.lost, |s.snd.lost|);
        ScanOutcome(s.snd);
      case DoAck(k) =>
        ReplyBounds(file, s, k);
        AckQueue(file, s, k);
        hide Inv, Apply, OnAck, FastIndices;
        AckKeepsBelow(s.snd, s.acks[k]);
      case _ =>
    }
  }

  lemma StepKeepsOrder(file: seq<Byte>, s: Sys, e: Event)
    requires Inv(file, s) && Enabled(s, e) && Calm(s.snd) && QueueInOrder(s.snd) && !e.DoTimeout?
    requires TriggersFit(PacketCount(|file|))
    ensures QueueInOrder(Apply(file, s, e).snd)
  {
    AppliedSender(file, s, e);
    match e {
      case DoScan =>
        ScanKeepsOrder(s.snd.total, s.snd.lost, |s.snd.lost|);
        ScanOutcome(s.snd);
      case DoAck(k) =>
        ReplyBounds(file, s, k);
        AckQueue(file, s, k);
        hide Inv, Apply, OnAck, FastIndices;
        AckKeepsOrder(s.snd, s.acks[k]);
      case _ =>
    }
  }

  lemma {:induction false} RunKeepsCalm(file: seq<Byte>, s: Sys, run: seq<Event>, t: Sys)
    requires Inv(file, s) && Calm(s.snd) && Timeouts(run) == 0 && Leads(file, s, run, t)
    requires TriggersFit(PacketCount(|file|)) ==> QueueInOrder(s.snd)
    ensures Calm(t.snd)
    ensures TriggersFit(PacketCount(|file|)) ==> QueueInOrder(t.snd)
    decreases |run|
  {
    if run != [] {
      var u := Apply(file, s, run[0]);
      StepKeeps(file, s, run[0]);
      StepKeepsCalm(file, s, run[0]);
      if TriggersFit(PacketCount(|file|)) {
        StepKeepsOrder(file, s, run[0]);
      }
      hide Apply, Inv;
      RunKeepsCalm(file, u, run[1..], t);
    }
  }

  /** In every state reached without a timeout the entries lie below the mark with triggers at most 4
      above it; unless a trigger wraps, the queue is sorted by trigger and holds no packet twice, and
      after each scan every entry left waits for a mark not yet reached. */
  lemma QueueIsOrdered(file: seq<Byte>, t: Sys)
    requires FileOk(file) && ReachableWithin(file, 0, t)
    ensures Calm(t.snd)
    ensures TriggersFit(PacketCount(|file|)) ==> QueueInOrder(t.snd)
  {
    InitialInv(file);
    var run :| Leads(file, Initial(file), run, t) && Timeouts(run) <= 0;
    RunKeepsCalm(file, Initial(file), run, t);
  }

  // ----- Timeouts -----

  ghost predicate AllAt(lost: seq<LostPack>, trigger: nat) {
    forall k | 0 <= k < |lost| :: lost[k].triggerAck == trigger
  }

  /** A pass turns the queue over entry by entry: every one that stays gets the same new trigger. */
  lemma {:induction false} FullScanTriggers(total: Ack, lost: seq<LostPack>, count: nat, isTimeout: bool)
    requires count <= |lost|
    requires forall k | 0 <= k < count :: isTimeout || lost[k].triggerAck <= total.mainAck
    requires forall k | count <= k < |lost| :: lost[k].triggerAck == PlusFour(total.mainAck)
    ensures AllAt(ScanQueue(total, lost, count, isTimeout).lost, PlusFour(total.mainAck))
    decreases count
  {
    if count != 0 {
      var rest := if Holds(total, lost[0].seqIndex) then lost[1..]
                  else lost[1..] + [LostPack(lost[0].seqIndex, PlusFour(total.mainAck))];
      FullScanTriggers(total, rest, count - 1, isTimeout);
      assert ScanQueue(total, lost, count, isTimeout).lost == ScanQueue(total, rest, count - 1, isTimeout).lost;
    }
  }

  lemma SortedBefore(q: seq<LostPack>, packs: seq<LostPack>, mark: nat)
    requires AllAt(q, PlusFour(mark))
    requires forall k | 0 <= k < |packs| :: packs[k].triggerAck == mark + k + 4
    ensures ByTrigger(q + packs)
  {
  }

  /** The state after a timeout and the pass it causes, with nothing of the pass received. */
  ghost function Passed(file: seq<Byte>, s: Sys): Sys
    requires Inv(file, s) && Enabled(s, DoTimeout)
  {
    Apply(file, Apply(file, s, DoTimeout), DoScan)
  }

  lemma TimeoutOutcome(file: seq<Byte>, s: Sys)
    requires Inv(file, s) && Enabled(s, DoTimeout)
    ensures var u := Apply(file, s, DoTimeout);
            && Inv(file, u) && Enabled(u, DoScan) && u.snd == OnTimeout(s.snd)
            && u.rcv == s.rcv && u.acks == s.acks && u.cursor == s.cursor
  {
    StepKeeps(file, s, DoTimeout);
  }

  lemma PassOutcome(file: seq<Byte>, s: Sys)
    requires Inv(file, s) && Enabled(s, DoTimeout)
    ensures var t, o := Passed(file, s), OnTimeout(s.snd);
            && Inv(file, t) && t.rcv == s.rcv && t.acks == s.acks && t.cursor == s.cursor
            && t.snd == s.snd.(lost := ScanQueue(o.total, o.lost, |o.lost|, true).lost + OutstandingPacks(o))
            && Enabled(t, DoTimeout)
  {
    TimeoutOutcome(file, s);
    var u := Apply(file, s, DoTimeout);
    StepKeeps(file, u, DoScan);
    ScanInWindow(u.snd);
    AppliedSender(file, u, DoScan);
    hide Inv, ScanQueue, OutstandingPacks, ScanIndices;
  }

  /** Whatever the order was, a timeout pass leaves the queue sorted by trigger. */
  lemma PassSorts(file: seq<Byte>, s: Sys)
    requires Inv(file, s) && Enabled(s, DoTimeout)
    ensures ByTrigger(Passed(file, s).snd.lost)
  {
    var o := OnTimeout(s.snd);
    PassOutcome(file, s);
    FullScanTriggers(o.total, o.lost, |o.lost|, true);
    hide Inv, Passed, ScanQueue, ByTrigger;
    SortedBefore(ScanQueue(o.total, o.lost, |o.lost|, true).lost, OutstandingPacks(o), o.total.mainAck);
  }

  /** A pass queues the packet at the mark, behind all that was queued before. */
  lemma PassQueues(file: seq<Byte>, s: Sys)
    requires Inv(file, s) && Enabled(s, DoTimeout) && s.snd.total.mainAck < s.snd.sendSeq
    ensures var o := OnTimeout(s.snd);
            var q := ScanQueue(o.total, o.lost, |o.lost|, true).lost;
            && |q| < |Passed(file, s).snd.lost| && Passed(file, s).snd.lost[..|q|] == q
            && Passed(file, s).snd.lost[|q|].seqIndex == s.snd.total.mainAck
  {
    PassOutcome(file, s);
    hide Inv, Passed, ScanQueue;
  }

  /** Two passes in a row queue the packet at the mark twice. */
  lemma TwoPassesRepeat(file: seq<Byte>, s: Sys)
    requires Inv(file, s) && Enabled(s, DoTimeout) && s.snd.total.mainAck < s.snd.sendSeq
    ensures Inv(file, Passed(file, s)) && Enabled(Passed(file, s), DoTimeout)
    ensures !NoRepeats(Passed(file, Passed(file, s)).snd.lost)
  {
    PassOutcome(file, s);
    PassQueues(file, s);
    var t := Passed(file, s);
    assert InQueue(t.snd.lost, s.snd.total.mainAck);
    PassQueues(file, t);
    var o := OnTimeout(t.snd);
    ScanQueueFacts(o.total, o.lost, |o.lost|, true, o.sendSeq) by {
      assert SenderQueue(t.snd);
    }
    hide Inv, Passed, ScanQueue;
    var q := ScanQueue(o.total, o.lost, |o.lost|, true).lost;
    assert !Holds(o.total, o.total.mainAck);
    var k :| 0 <= k < |q| && q[k].seqIndex == o.total.mainAck;
    assert Passed(file, t).snd.lost[..|q|][k] == q[k];
  }
}
