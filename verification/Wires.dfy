/** What each of the sender's steps puts on the wire, in terms of its state before. */
module Wires {
  import opened AckTable
  import opened FileRing
  import opened Senders
  import opened Protocol
  import opened Invariant
  import opened LostQueue
  import opened Safety

  // ----- The scan in closed form -----

  /** The indices of these entries that are not acknowledged, in order. */
  function Unacked(total: Ack, lost: seq<LostPack>): (r: seq<nat>)
    ensures forall i: nat :: i in r <==> InQueue(lost, i) && !Holds(total, i)
  {
    if lost == [] then []
    else
      var rest := Unacked(total, lost[1..]);
      InQueueFirst(lost);
      if Holds(total, lost[0].seqIndex) then rest else [lost[0].seqIndex] + rest
  }

  lemma InQueueFirst(lost: seq<LostPack>)
    requires lost != []
    ensures forall i: nat :: InQueue(lost, i) <==> lost[0].seqIndex == i || InQueue(lost[1..], i)
  {
    forall i: nat ensures InQueue(lost, i) <==> lost[0].seqIndex == i || InQueue(lost[1..], i) {
      assert lost == [lost[0]] + lost[1..];
      InQueueConcat([lost[0]], lost[1..], i);
      assert InQueue([lost[0]], i) <==> lost[0].seqIndex == i by {
        assert [lost[0]][0].seqIndex == lost[0].seqIndex;
      }
    }
  }

  /** The first p entries are due at the mark, and the next one is not. */
  ghost predicate DuePrefix(lost: seq<LostPack>, mark: nat, p: nat) {
    && p <= |lost|
    && (forall k | 0 <= k < p :: lost[k].triggerAck <= mark)
    && (p < |lost| ==> lost[p].triggerAck > mark)
  }

  lemma PacksConcat(a: seq<nat>, b: seq<nat>, trigger: nat)
    ensures Packs(a + b, trigger) == Packs(a, trigger) + Packs(b, trigger)
  {
  }

  /** The scan takes p entries from the front, resends those not acknowledged and queues them behind: p is
      the number of due entries at the front, or all after a timeout. */
  lemma {:induction false} ScanClosedForm(total: Ack, lost: seq<LostPack>, more: seq<LostPack>, isTimeout: bool, p: nat)
    requires if isTimeout then p == |lost| else DuePrefix(lost, total.mainAck, p)
    ensures var indices := Unacked(total, lost[..p]);
            var turned := Packs(indices, PlusFour(total.mainAck));
            ScanQueue(total, lost + more, |lost|, isTimeout) == Scanned(lost[p..] + more + turned, indices)
    decreases |lost|
  {
    var all := lost + more;
    ScanUnfolds(total, all, |lost|, isTimeout);
    if p == 0 {
      assert lost[..p] == [] && lost[p..] == lost;
      assert all + Packs([], PlusFour(total.mainAck)) == all;
    } else {
      var rest := lost[1..];
      assert all[0] == lost[0] && lost[..p][0] == lost[0] && lost[..p][1..] == rest[..p - 1];
      assert rest[p - 1..] == lost[p..];
      var indices := Unacked(total, rest[..p - 1]);
      if Holds(total, lost[0].seqIndex) {
        assert all[1..] == rest + more;
        ScanClosedForm(total, rest, more, isTimeout, p - 1);
      } else {
        var again := LostPack(lost[0].seqIndex, PlusFour(total.mainAck));
        assert all[1..] + [again] == rest + (more + [again]);
        ScanClosedForm(total, rest, more + [again], isTimeout, p - 1);
        PacksConcat([lost[0].seqIndex], indices, PlusFour(total.mainAck));
        assert Packs([lost[0].seqIndex], PlusFour(total.mainAck)) == [again];
        assert lost[p..] + (more + [again]) + Packs(indices, PlusFour(total.mainAck))
            == lost[p..] + more + ([again] + Packs(indices, PlusFour(total.mainAck)));
      }
    }
  }

  /** How many entries at the front are due. */
  function DueCount(lost: seq<LostPack>, mark: nat): (p: nat)
    ensures DuePrefix(lost, mark, p)
  {
    if lost == [] || lost[0].triggerAck > mark then 0
    else
      var p := 1 + DueCount(lost[1..], mark);
      assert forall k | 0 < k < |lost| :: lost[k] == lost[1..][k - 1];
      p
  }

  // ----- On the wire -----

  /** Exactly these indices go out: each has a datagram on the wire afterwards, and no other index has a
      new one. */
  ghost predicate PutsOut(s: Sys, t: Sys, indices: iset<nat>) {
    && s.data <= t.data
    && (forall i | i in indices :: SentPacket(t.data, i))
    && (forall d | d in t.data && d !in s.data :: d.seqIndex in indices)
  }

  lemma WirePutsOut(s: Sys, t: Sys, sent: seq<nat>, indices: iset<nat>)
    requires t.data == s.data + Wire(s.snd.buffer, sent)
    requires forall i: nat :: i in sent <==> i in indices
    ensures PutsOut(s, t, indices)
  {
    var ds := Datagrams(s.snd.buffer, sent);
    forall i | i in indices ensures SentPacket(t.data, i) {
      var k :| 0 <= k < |sent| && sent[k] == i;
      assert ds[k] in ds && ds[k].seqIndex == i;
    }
    forall d | d in t.data && d !in s.data ensures d.seqIndex in indices {
      var k :| 0 <= k < |ds| && ds[k] == d;
      assert sent[k] in sent;
    }
  }

  /** Without a timeout a scan resends the due entries at the front of the queue that are not acknowledged,
      and queues exactly those behind the rest with a trigger 4 past the mark. */
  lemma ScanPutsOut(file: seq<Byte>, s: Sys)
    requires Inv(file, s) && Enabled(s, DoScan) && !s.snd.isTimeout
    ensures var t, p := Apply(file, s, DoScan), DueCount(s.snd.lost, s.snd.total.mainAck);
            var due := s.snd.lost[..p];
            && PutsOut(s, t, iset i: nat | InQueue(due, i) && !Holds(s.snd.total, i))
            && t.snd.lost == s.snd.lost[p..] + Packs(Unacked(s.snd.total, due), PlusFour(s.snd.total.mainAck))
  {
    var t, p := Apply(file, s, DoScan), DueCount(s.snd.lost, s.snd.total.mainAck);
    var due := s.snd.lost[..p];
    ScanInWindow(s.snd);
    ScanClosedForm(s.snd.total, s.snd.lost, [], false, p);
    assert s.snd.lost + [] == s.snd.lost && s.snd.lost[p..] + [] == s.snd.lost[p..];
    ScanOutcome(s.snd);
    AppliedSender(file, s, DoScan);
    var sent := Unacked(s.snd.total, due);
    assert sent + [] == sent;
    assert t.data == s.data + Wire(s.snd.buffer, sent);
    hide Apply, Inv, Unacked, ScanQueue, Wire;
    WirePutsOut(s, t, sent, iset i: nat | InQueue(due, i) && !Holds(s.snd.total, i));
  }

  ghost predicate Due(lost: seq<LostPack>, mark: nat, i: nat) {
    exists k :: 0 <= k < |lost| && lost[k].seqIndex == i && lost[k].triggerAck <= mark
  }

  lemma DueInFront(lost: seq<LostPack>, mark: nat, p: nat, i: nat)
    requires ByTrigger(lost) && DuePrefix(lost, mark, p)
    ensures InQueue(lost[..p], i) <==> Due(lost, mark, i)
  {
    var due := lost[..p];
    if Due(lost, mark, i) {
      var k :| 0 <= k < |lost| && lost[k].seqIndex == i && lost[k].triggerAck <= mark;
      assert k < p;
      assert due[k].seqIndex == i;
    }
    if InQueue(due, i) {
      var k :| 0 <= k < |due| && due[k].seqIndex == i;
      assert lost[k] == due[k];
    }
  }

  lemma FrontNoRepeats(lost: seq<LostPack>, p: nat)
    requires NoRepeats(lost) && p <= |lost|
    ensures NoRepeats(lost[..p])
  {
  }

  /** In an ordered queue these are all the due ones, and each goes out once. */
  lemma OrderedScanSendsOnce(lost: seq<LostPack>, total: Ack, i: nat)
    requires ByTrigger(lost) && NoRepeats(lost)
    ensures var sent := Unacked(total, lost[..DueCount(lost, total.mainAck)]);
            (i in sent <==> Due(lost, total.mainAck, i) && !Holds(total, i)) && Distinct(sent)
  {
    hide ByTrigger, NoRepeats, DuePrefix, Unacked, DueCount, Due, InQueue, Distinct, Holds;
    var p := DueCount(lost, total.mainAck);
    DueInFront(lost, total.mainAck, p, i);
    PrefixFits(lost, total.mainAck, p);
    FrontNoRepeats(lost, p);
    UnackedOnce(total, lost[..p]);
  }

  lemma PrefixFits(lost: seq<LostPack>, mark: nat, p: nat)
    requires DuePrefix(lost, mark, p)
    ensures p <= |lost|
  {
  }

  ghost predicate Distinct(s: seq<nat>) {
    forall j, k | 0 <= j < k < |s| :: s[j] != s[k]
  }

  lemma {:induction false} UnackedOnce(total: Ack, lost: seq<LostPack>)
    requires NoRepeats(lost)
    ensures Distinct(Unacked(total, lost))
  {
    if lost != [] {
      var rest := lost[1..];
      UnackedOnce(total, rest);
      var r := Unacked(total, rest);
      forall k | 0 <= k < |r| ensures r[k] != lost[0].seqIndex {
        assert r[k] in r;
        var j :| 0 <= j < |rest| && rest[j].seqIndex == r[k];
        assert lost[j + 1] == rest[j];
      }
      if !Holds(total, lost[0].seqIndex) {
        FirstDiffers(lost[0].seqIndex, r);
      }
    }
  }

  lemma FirstDiffers(x: nat, r: seq<nat>)
    requires (forall k | 0 <= k < |r| :: r[k] != x) && Distinct(r)
    ensures Distinct([x] + r)
  {
    var w := [x] + r;
    assert forall k | 0 < k < |w| :: w[k] == r[k - 1];
  }

  /** After a timeout the pass sends again exactly what was sent and is not acknowledged. */
  lemma PassPutsOut(file: seq<Byte>, s: Sys)
    requires Inv(file, s) && Enabled(s, DoTimeout)
    ensures var u := Apply(file, s, DoTimeout);
            && Enabled(u, DoScan) && u.data == s.data
            && PutsOut(s, Apply(file, u, DoScan), iset i: nat | i < s.snd.sendSeq && !Holds(s.snd.total, i))
  {
    var u := Apply(file, s, DoTimeout);
    TimeoutOutcome(file, s);
    TimeoutResendsUnacked(file, s);
    assert u.data == s.data by {
      assert Wire(s.snd.buffer, SentBy(s, DoTimeout)) == {};
    }
    ScanInWindow(u.snd);
    AppliedSender(file, u, DoScan);
    var t, sent := Apply(file, u, DoScan), SentBy(u, DoScan);
    assert t.data == s.data + Wire(s.snd.buffer, sent);
    hide Apply, Inv, SentBy, Wire;
    WirePutsOut(s, t, sent, iset i: nat | i < s.snd.sendSeq && !Holds(s.snd.total, i));
  }

  /** Reading a reply sends again exactly its NAKs at or above the old mark. */
  lemma AckPutsOut(file: seq<Byte>, s: Sys, k: nat)
    requires Inv(file, s) && Enabled(s, DoAck(k))
    ensures PutsOut(s, Apply(file, s, DoAck(k)), iset n: nat | n in s.acks[k].naks && n >= s.snd.total.mainAck)
  {
    var reply := s.acks[k];
    ReplyBounds(file, s, k);
    AckOutcome(file, s, k);
    AppliedSender(file, s, DoAck(k));
    var t, fast := Apply(file, s, DoAck(k)), FastIndices(s.snd, reply);
    assert t.data == s.data + Wire(s.snd.buffer, fast);
    forall n: nat ensures n in fast <==> n in reply.naks && n >= s.snd.total.mainAck {
      if n in reply.naks && n >= s.snd.total.mainAck {
        assert s.snd.total.mainAck <= MinusTwo(reply.mainAck);
      }
    }
    hide Apply, Inv, FastIndices, Wire;
    WirePutsOut(s, t, fast, iset n: nat | n in reply.naks && n >= s.snd.total.mainAck);
  }

  /** The sender's main step sends the next packet and nothing else. */
  lemma SendPutsOut(file: seq<Byte>, s: Sys)
    requires Inv(file, s) && Enabled(s, DoSend)
    ensures PutsOut(s, Apply(file, s, DoSend), iset{s.snd.sendSeq})
    ensures Apply(file, s, DoSend).snd.sendSeq == s.snd.sendSeq + 1
  {
    BottomIsLeastMissing(s.snd.total);
    AppliedSender(file, s, DoSend);
    WirePutsOut(s, Apply(file, s, DoSend), [s.snd.sendSeq], iset{s.snd.sendSeq});
  }
}
