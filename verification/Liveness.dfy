/** Progress: what a loss-free round achieves, how many rounds finish the transfer, and from which
    states the sender can still return. */
module Liveness {
  import opened AckTable
  import opened FileRing
  import opened Receivers
  import opened Senders
  import opened Protocol
  import opened Invariant
  import opened Safety

  /** What the sender does next unless it has to receive. */
  ghost function NextMove(s: Sys): Event {
    if s.snd.place == Head then DoScan else DoSend
  }

  /** The sender's own move keeps the invariant, leaves the rest alone and brings it nearer to a wait. */
  lemma OwnMove(file: seq<Byte>, s: Sys)
    requires Inv(file, s) && (s.snd.place == Head || (s.snd.place == Gate && !Blocked(s.snd)))
    ensures var u := Apply(file, s, NextMove(s));
            && Inv(file, u) && u.rcv == s.rcv && u.acks == s.acks && u.cursor == s.cursor
            && u.snd.total == s.snd.total && u.snd.buffer.limit == s.snd.buffer.limit
            && if s.snd.place == Head then u.snd.place == Gate && u.snd.sendSeq == s.snd.sendSeq
               else u.snd.place == Head && u.snd.sendSeq == s.snd.sendSeq + 1 <= s.snd.buffer.limit
  {
    StepKeeps(file, s, NextMove(s));
    if s.snd.place == Head {
      ScanInWindow(s.snd);
    }
  }

  /** The sender's loop up to its next `recv`: scan and send while the windows allow. */
  ghost function FillWindow(file: seq<Byte>, s: Sys): (t: Sys)
    requires Inv(file, s) && (s.snd.place == Head || s.snd.place == Gate)
    ensures Inv(file, t) && Reaches(file, s, t)
    ensures t.snd.place == Gate && Blocked(t.snd) && t.snd.total == s.snd.total
    ensures t.rcv == s.rcv && t.acks == s.acks && t.cursor == s.cursor
    decreases s.snd.buffer.limit - s.snd.sendSeq, s.snd.place == Head
  {
    hide Apply;
    ReachesSelf(file, s);
    if s.snd.place == Gate && Blocked(s.snd) then s
    else
      OwnMove(file, s);
      ReachesStep(file, s, NextMove(s));
      var u := Apply(file, s, NextMove(s));
      Then(file, s, u, FillWindow(file, u))
  }

  /** Filling the window is the next move and then filling the window. */
  lemma FillWindowStep(file: seq<Byte>, s: Sys)
    requires Inv(file, s) && (s.snd.place == Head || (s.snd.place == Gate && !Blocked(s.snd)))
    ensures Enabled(s, NextMove(s)) && Inv(file, Apply(file, s, NextMove(s)))
    ensures var u := Apply(file, s, NextMove(s));
            (u.snd.place == Head || u.snd.place == Gate) && FillWindow(file, s) == FillWindow(file, u)
  {
    hide Apply, Blocked;
    OwnMove(file, s);
  }

  /** t, once it is known that s reaches u and u reaches t. */
  ghost function Then(file: seq<Byte>, s: Sys, u: Sys, t: Sys): (r: Sys)
    requires SysOk(file, s) && Reaches(file, s, u) && Reaches(file, u, t)
    ensures r == t && Reaches(file, s, t)
  {
    ReachesOn(file, s, u, t);
    t
  }

  ghost predicate Listening(r: Rcv) {
    r.phase == Receiving || r.phase == Closing
  }

  lemma Delivered(file: seq<Byte>, s: Sys, d: Datagram)
    requires Inv(file, s) && Enabled(s, DoData(d))
    ensures var u := Apply(file, s, DoData(d));
            && Inv(file, u) && Reaches(file, s, u) && Listening(u.rcv)
            && u.snd == s.snd && u.data == s.data && u.cursor == s.cursor
            && u.acks == s.acks + [u.rcv.reply]
            && Contained(s.rcv.reply, u.rcv.reply)
  {
    StepKeeps(file, s, DoData(d));
    DataKeepsReceiver(file, s, d);
    ReachesStep(file, s, DoData(d));
  }

  /** The datagrams arrive one after the other, in this order. */
  ghost function Deliver(file: seq<Byte>, s: Sys, ds: seq<Datagram>): (t: Sys)
    requires Inv(file, s) && Listening(s.rcv) && forall d | d in ds :: d in s.data
    ensures Inv(file, t) && Listening(t.rcv) && t.snd == s.snd && t.data == s.data
    decreases |ds|
  {
    if ds == [] then s
    else
      Delivered(file, s, ds[0]);
      Deliver(file, Apply(file, s, DoData(ds[0])), ds[1..])
  }

  lemma {:induction false} DeliverReaches(file: seq<Byte>, s: Sys, ds: seq<Datagram>)
    requires Inv(file, s) && Listening(s.rcv) && forall d | d in ds :: d in s.data
    ensures Reaches(file, s, Deliver(file, s, ds))
    decreases |ds|
  {
    if ds == [] {
      ReachesSelf(file, s);
    } else {
      var u := Apply(file, s, DoData(ds[0]));
      Delivered(file, s, ds[0]);
      DeliverReaches(file, u, ds[1..]);
      ReachesOn(file, s, u, Deliver(file, u, ds[1..]));
    }
  }

  lemma {:induction false} DeliverGrows(file: seq<Byte>, s: Sys, ds: seq<Datagram>)
    requires Inv(file, s) && Listening(s.rcv) && forall d | d in ds :: d in s.data
    ensures Contained(s.rcv.reply, Deliver(file, s, ds).rcv.reply)
    decreases |ds|
  {
    if ds != [] {
      Delivered(file, s, ds[0]);
      DeliverGrows(file, Apply(file, s, DoData(ds[0])), ds[1..]);
    }
  }

  /** A reply the sender can still read shows the receiver's record. */
  ghost predicate Answered(s: Sys) {
    s.cursor < |s.acks| && s.acks[|s.acks| - 1] == s.rcv.reply
  }

  lemma {:induction false} DeliverAnswers(file: seq<Byte>, s: Sys, ds: seq<Datagram>)
    requires Inv(file, s) && Listening(s.rcv) && forall d | d in ds :: d in s.data
    requires ds != []
    ensures Answered(Deliver(file, s, ds))
    decreases |ds|
  {
    Delivered(file, s, ds[0]);
    var u := Apply(file, s, DoData(ds[0]));
    if ds[1..] == [] {
      assert Deliver(file, s, ds) == u;
    } else {
      DeliverAnswers(file, u, ds[1..]);
    }
  }

  /** What the timeout pass sends. */
  ghost function PassDatagrams(s: Sys): seq<Datagram> {
    Datagrams(s.snd.buffer, ScanIndices(OnTimeout(s.snd)))
  }

  /** The state when the pass is on the wire and nothing of it has arrived. */
  ghost function AfterPass(file: seq<Byte>, s: Sys): (t: Sys)
    requires Inv(file, s) && Enabled(s, DoTimeout)
    ensures Inv(file, t) && Reaches(file, s, t) && t.rcv == s.rcv && t.acks == s.acks && t.cursor == s.cursor
    ensures Enabled(t, DoTimeout)
    ensures t.snd.total == s.snd.total && t.snd.sendSeq == s.snd.sendSeq && t.snd.buffer == s.snd.buffer
    ensures forall d | d in PassDatagrams(s) :: d in t.data
  {
    var a := Apply(file, s, DoTimeout);
    StepKeeps(file, s, DoTimeout);
    ReachesStep(file, s, DoTimeout);
    ScanInWindow(a.snd);
    StepKeeps(file, a, DoScan);
    ReachesStep(file, a, DoScan);
    Then(file, s, a, Apply(file, a, DoScan))
  }

  lemma PassNotEmpty(file: seq<Byte>, s: Sys)
    requires Inv(file, s) && Enabled(s, DoTimeout)
    ensures PassDatagrams(s) != []
  {
    TimeoutResendsUnacked(file, s);
    BottomIsLeastMissing(s.snd.total);
    assert Bottom(s.snd.total) in SentBy(Apply(file, s, DoTimeout), DoScan);
  }

  ghost function AllDelivered(file: seq<Byte>, s: Sys): (t: Sys)
    requires Inv(file, s) && Enabled(s, DoTimeout) && Listening(s.rcv)
    ensures Inv(file, t) && Listening(t.rcv) && t.snd == AfterPass(file, s).snd
  {
    Deliver(file, AfterPass(file, s), PassDatagrams(s))
  }

  lemma PassReaches(file: seq<Byte>, s: Sys)
    requires Inv(file, s) && Enabled(s, DoTimeout) && Listening(s.rcv)
    ensures Reaches(file, s, AllDelivered(file, s))
  {
    var b := AfterPass(file, s);
    DeliverReaches(file, b, PassDatagrams(s));
    hide Inv;
    ReachesOn(file, s, b, AllDelivered(file, s));
  }

  /** The pass is never empty, so its last reply shows what the receiver now holds. */
  lemma PassAnswered(file: seq<Byte>, s: Sys)
    requires Inv(file, s) && Enabled(s, DoTimeout) && Listening(s.rcv)
    ensures Answered(AllDelivered(file, s))
  {
    PassNotEmpty(file, s);
    DeliverAnswers(file, AfterPass(file, s), PassDatagrams(s));
  }

  lemma AckRead(file: seq<Byte>, s: Sys, k: nat)
    requires Inv(file, s) && Enabled(s, DoAck(k))
    ensures var t := Apply(file, s, DoAck(k));
            && t.snd.total == s.acks[k] && t.snd.sendSeq == s.snd.sendSeq
            && t.rcv == s.rcv && t.acks == s.acks && t.cursor == k
            && t.snd.place == if Bottom(s.acks[k]) >= s.snd.buffer.limit then Returned else Head
  {
    AckOutcome(file, s, k);
    AppliedSender(file, s, DoAck(k));
    hide Inv, OnAck, FastIndices, SysOk, Wire;
  }

  /** The sender reads the newest reply. */
  ghost function LastReply(file: seq<Byte>, s: Sys): (t: Sys)
    requires Inv(file, s) && Enabled(s, DoTimeout) && Answered(s)
    ensures Inv(file, t)
  {
    StepKeeps(file, s, DoAck(|s.acks| - 1));
    Apply(file, s, DoAck(|s.acks| - 1))
  }

  lemma LastReplyStep(file: seq<Byte>, s: Sys)
    requires Inv(file, s) && Enabled(s, DoTimeout) && Answered(s)
    ensures SysOk(file, s) && Enabled(s, DoAck(|s.acks| - 1))
    ensures LastReply(file, s) == Apply(file, s, DoAck(|s.acks| - 1))
  {
    assert SysOk(file, s);
    hide Inv, Apply, SysOk;
  }

  lemma LastReplyRead(file: seq<Byte>, s: Sys)
    requires Inv(file, s) && Enabled(s, DoTimeout) && Answered(s)
    ensures var t := LastReply(file, s);
            && t.rcv == s.rcv && t.snd.total == s.rcv.reply && t.snd.sendSeq == s.snd.sendSeq
            && t.acks == s.acks && t.cursor < |t.acks|
            && t.snd.place == if Bottom(s.rcv.reply) >= s.snd.buffer.limit then Returned else Head
  {
    hide Inv, SysOk, Apply, LastReply, Bottom;
    LastReplyStep(file, s);
    AckRead(file, s, |s.acks| - 1);
  }

  lemma LastReplyReaches(file: seq<Byte>, s: Sys)
    requires Inv(file, s) && Enabled(s, DoTimeout) && Answered(s)
    ensures Reaches(file, s, LastReply(file, s))
  {
    hide Inv, SysOk, Reaches, Apply, LastReply;
    LastReplyStep(file, s);
    ReachesStep(file, s, DoAck(|s.acks| - 1));
  }

  ghost function Refilled(file: seq<Byte>, s: Sys): (t: Sys)
    requires Inv(file, s) && (s.snd.place == Head || s.snd.place == Returned)
    ensures Inv(file, t) && Reaches(file, s, t) && t.rcv == s.rcv && t.snd.total == s.snd.total
    ensures if s.snd.place == Returned then t == s else t.snd.place == Gate && Blocked(t.snd)
  {
    ReachesSelf(file, s);
    if s.snd.place == Returned then s else FillWindow(file, s)
  }

  /** One loss-free round: a timeout, the pass it causes, all its datagrams in order, and of the
      replies only the last; then the sender fills its window again unless it has returned. */
  ghost function Round(file: seq<Byte>, s: Sys): (t: Sys)
    requires Inv(file, s) && Enabled(s, DoTimeout) && Listening(s.rcv)
    ensures Inv(file, t) && Listening(t.rcv)
    ensures t.snd.place == Returned || Enabled(t, DoTimeout)
  {
    PassAnswered(file, s);
    LastReplyRead(file, AllDelivered(file, s));
    hide Inv, AllDelivered, LastReply, Refilled;
    Refilled(file, LastReply(file, AllDelivered(file, s)))
  }

  lemma RoundReaches(file: seq<Byte>, s: Sys)
    requires Inv(file, s) && Enabled(s, DoTimeout) && Listening(s.rcv)
    ensures Reaches(file, s, Round(file, s))
  {
    hide Inv, Reaches, AllDelivered, LastReply, Refilled;
    PassAnswered(file, s);
    PassReaches(file, s);
    var c := AllDelivered(file, s);
    LastReplyRead(file, c);
    LastReplyReaches(file, c);
    var d := LastReply(file, c);
    ReachesOn(file, s, c, d);
    ReachesOn(file, s, d, Refilled(file, d));
  }

  // ----- A pass is complete -----

  /** A delivered packet is held afterwards if nothing below it is missing or it lies below the mark. */
  lemma DeliveredHeld(file: seq<Byte>, s: Sys, d: Datagram)
    requires Inv(file, s) && Enabled(s, DoData(d))
    requires d.seqIndex <= Bottom(s.rcv.reply) || d.seqIndex < s.rcv.reply.mainAck
    ensures Holds(Apply(file, s, DoData(d)).rcv.reply, d.seqIndex)
  {
    BottomIsLeastMissing(s.rcv.reply);
    UpdateGrows(s.rcv.reply, d.seqIndex);
    if s.rcv.phase == Receiving && Update(s.rcv.reply, d.seqIndex).accepted {
      AcceptedBounds(file, s, d);
    }
  }

  lemma LeastMissingMoves(a: Ack, b: Ack, i: nat)
    requires Shaped(a) && Shaped(b) && Contained(a, b) && Holds(b, i) && i <= Bottom(a)
    ensures i < Bottom(b)
  {
    BottomIsLeastMissing(a);
    BottomIsLeastMissing(b);
  }

  lemma BottomMoves(file: seq<Byte>, s: Sys, d: Datagram)
    requires Inv(file, s) && Enabled(s, DoData(d)) && d.seqIndex <= Bottom(s.rcv.reply)
    ensures d.seqIndex < Bottom(Apply(file, s, DoData(d)).rcv.reply)
  {
    Delivered(file, s, d);
    DeliveredHeld(file, s, d);
    LeastMissingMoves(s.rcv.reply, Apply(file, s, DoData(d)).rcv.reply, d.seqIndex);
  }

  lemma MarkGrows(file: seq<Byte>, s: Sys, d: Datagram)
    requires Inv(file, s) && Enabled(s, DoData(d))
    ensures s.rcv.reply.mainAck <= Apply(file, s, DoData(d)).rcv.reply.mainAck
  {
    Delivered(file, s, d);
    ContainedBounds(s.rcv.reply, Apply(file, s, DoData(d)).rcv.reply);
  }

  /** Every packet below the mark is held once it has been delivered, whatever comes between. */
  lemma {:induction false} DeliverHeld(file: seq<Byte>, s: Sys, ds: seq<Datagram>, k: nat)
    requires Inv(file, s) && Listening(s.rcv) && forall d | d in ds :: d in s.data
    requires k < |ds| && ds[k].seqIndex < s.rcv.reply.mainAck
    ensures Holds(Deliver(file, s, ds).rcv.reply, ds[k].seqIndex)
    decreases |ds|
  {
    var u, rest := Apply(file, s, DoData(ds[0])), ds[1..];
    Delivered(file, s, ds[0]);
    assert Deliver(file, s, ds) == Deliver(file, u, rest);
    if k == 0 {
      DeliveredHeld(file, s, ds[0]);
      DeliverGrows(file, u, rest);
    } else {
      MarkGrows(file, s, ds[0]);
      DeliverHeld(file, u, rest, k - 1);
    }
  }

  /** Consecutive packets from the least missing one on are all accepted. */
  lemma {:induction false} DeliverRow(file: seq<Byte>, s: Sys, ds: seq<Datagram>, lo: nat)
    requires Inv(file, s) && Listening(s.rcv) && forall d | d in ds :: d in s.data
    requires forall k | 0 <= k < |ds| :: ds[k].seqIndex == lo + k
    requires lo <= Bottom(s.rcv.reply)
    ensures lo + |ds| <= Bottom(Deliver(file, s, ds).rcv.reply)
    decreases |ds|
  {
    if ds != [] {
      var u := Apply(file, s, DoData(ds[0]));
      Delivered(file, s, ds[0]);
      BottomMoves(file, s, ds[0]);
      DeliverRow(file, u, ds[1..], lo + 1);
    }
  }

  lemma DeliverStep(file: seq<Byte>, s: Sys, ds: seq<Datagram>)
    requires Inv(file, s) && Listening(s.rcv) && ds != [] && forall d | d in ds :: d in s.data
    ensures Enabled(s, DoData(ds[0]))
    ensures var u := Apply(file, s, DoData(ds[0]));
            && Inv(file, u) && Listening(u.rcv) && u.data == s.data
            && Deliver(file, s, ds) == Deliver(file, u, ds[1..])
  {
    assert Enabled(s, DoData(ds[0]));
    hide Inv, Apply, Enabled, Listening;
    Delivered(file, s, ds[0]);
  }

  lemma {:induction false} DeliverSplit(file: seq<Byte>, s: Sys, a: seq<Datagram>, b: seq<Datagram>)
    requires Inv(file, s) && Listening(s.rcv) && forall d | d in a + b :: d in s.data
    ensures (forall d | d in a :: d in s.data) && (forall d | d in b :: d in s.data)
    ensures Deliver(file, s, a + b) == Deliver(file, Deliver(file, s, a), b)
    decreases |a|
  {
    assert forall d | d in a :: d in a + b;
    assert forall d | d in b :: d in a + b;
    if a == [] {
      assert a + b == b;
    } else {
      assert (a + b)[0] == a[0] && (a + b)[1..] == a[1..] + b;
      hide *;
      DeliverStep(file, s, a + b);
      DeliverStep(file, s, a);
      DeliverSplit(file, Apply(file, s, DoData(a[0])), a[1..], b);
    }
  }

  /** The pass is the resends from the queue, then everything from the sender's mark on. */
  lemma PassSplits(file: seq<Byte>, s: Sys) returns (u: Sys, a: seq<Datagram>, b: seq<Datagram>)
    requires Inv(file, s) && Enabled(s, DoTimeout) && Listening(s.rcv)
    ensures Inv(file, u) && Listening(u.rcv) && u.snd.total == s.snd.total
    ensures a == Datagrams(s.snd.buffer, ScanQueue(s.snd.total, s.snd.lost, |s.snd.lost|, true).resent)
    ensures |b| == s.snd.sendSeq - s.snd.total.mainAck
    ensures forall k | 0 <= k < |b| :: b[k].seqIndex == s.snd.total.mainAck + k
    ensures (forall d | d in a :: d in u.data) && (forall d | d in b :: d in u.data)
    ensures AllDelivered(file, s) == Deliver(file, Deliver(file, u, a), b)
  {
    assert s.snd.total.mainAck <= s.snd.sendSeq;
    hide Inv, ScanQueue, Deliver, AfterPass, Apply;
    var o := OnTimeout(s.snd);
    var q := ScanQueue(o.total, o.lost, |o.lost|, true).resent;
    a, b := Datagrams(s.snd.buffer, q), Datagrams(s.snd.buffer, Outstanding(o));
    DatagramsConcat(s.snd.buffer, q, Outstanding(o));
    assert PassDatagrams(s) == a + b;
    u := AfterPass(file, s);
    DeliverSplit(file, u, a, b);
  }

  /** However the earlier replies were lost and whatever the receiver held, after one loss-free pass
      it holds every packet sent so far, without a hole. */
  lemma PassCatchesUp(file: seq<Byte>, s: Sys)
    requires Inv(file, s) && Enabled(s, DoTimeout) && Listening(s.rcv)
    ensures AllDelivered(file, s).rcv.reply == Ack(s.snd.sendSeq, [])
  {
    var u, a, b := PassSplits(file, s);
    HeldBelowMark(file, s, u, ScanQueue(s.snd.total, s.snd.lost, |s.snd.lost|, true).resent);
    DeliverRow(file, Deliver(file, u, a), b, s.snd.total.mainAck);
    var reply := AllDelivered(file, s).rcv.reply;
    BottomIsLeastMissing(reply);
    NoHoles(reply);
  }

  lemma NoHoles(a: Ack)
    requires Shaped(a) && Bottom(a) >= a.mainAck
    ensures a.naks == []
  {
    if a.naks != [] {
      HoleSpan(a);
    }
  }

  /** After the resends from the queue nothing below the sender's mark is missing. */
  lemma HeldBelowMark(file: seq<Byte>, s: Sys, u: Sys, q: seq<nat>)
    requires Inv(file, s) && Enabled(s, DoTimeout) && Inv(file, u)
    requires q == ScanQueue(s.snd.total, s.snd.lost, |s.snd.lost|, true).resent
    requires u.snd.total == s.snd.total && Listening(u.rcv)
    requires forall d | d in Datagrams(s.snd.buffer, q) :: d in u.data
    ensures s.snd.total.mainAck <= Bottom(Deliver(file, u, Datagrams(s.snd.buffer, q)).rcv.reply)
  {
    var ds := Datagrams(s.snd.buffer, q);
    var reply := Deliver(file, u, ds).rcv.reply;
    DeliverGrows(file, u, ds);
    ContainedBounds(u.snd.total, u.rcv.reply);
    FullScanResends(s.snd.total, s.snd.lost, |s.snd.lost|);
    forall i: nat | i < s.snd.total.mainAck ensures Holds(reply, i) {
      if !Holds(s.snd.total, i) {
        assert InQueue(s.snd.lost, i);
        var k :| 0 <= k < |q| && q[k] == i;
        DeliverHeld(file, u, ds, k);
      }
    }
    BottomIsLeastMissing(reply);
  }

  // ----- Finishing -----

  lemma RoundTotal(file: seq<Byte>, s: Sys)
    requires Inv(file, s) && Enabled(s, DoTimeout) && Listening(s.rcv)
    ensures Round(file, s).snd.total == Ack(s.snd.sendSeq, [])
    ensures Round(file, s).snd.place == Returned <==> s.snd.sendSeq >= s.snd.buffer.limit
  {
    PassCatchesUp(file, s);
    PassAnswered(file, s);
    LastReplyRead(file, AllDelivered(file, s));
    hide Inv, Reaches, Deliver, LastReply;
  }

  /** A round acknowledges everything sent before it, and the next window is 15 packets or the rest. */
  lemma RoundAdvances(file: seq<Byte>, s: Sys)
    requires Inv(file, s) && Enabled(s, DoTimeout) && Listening(s.rcv)
    ensures var t := Round(file, s);
            && t.snd.total == Ack(s.snd.sendSeq, [])
            && Bottom(s.snd.total) < Bottom(t.snd.total)
            && (t.snd.place == Returned <==> s.snd.sendSeq == PacketCount(|file|))
            && (t.snd.place != Returned ==> t.snd.sendSeq == Min(PacketCount(|file|), s.snd.sendSeq + SOFT_WIND))
  {
    RoundTotal(file, s);
    BottomIsLeastMissing(s.snd.total);
  }

  ghost function Rounds(file: seq<Byte>, s: Sys, n: nat): (t: Sys)
    requires Inv(file, s) && Listening(s.rcv) && (s.snd.place == Returned || Enabled(s, DoTimeout))
    ensures Inv(file, t) && Reaches(file, s, t) && Listening(t.rcv)
    decreases n
  {
    ReachesSelf(file, s);
    if n == 0 || s.snd.place == Returned then s
    else
      var u := Round(file, s);
      RoundReaches(file, s);
      Then(file, s, u, Rounds(file, u, n - 1))
  }

  /** The transfer ends: one round for what is outstanding, then one for each 15 packets left. */
  lemma {:induction false} RoundsFinish(file: seq<Byte>, s: Sys, n: nat)
    requires Inv(file, s) && Enabled(s, DoTimeout) && Listening(s.rcv)
    requires n > 0 && s.snd.sendSeq + SOFT_WIND * (n - 1) >= PacketCount(|file|)
    ensures Rounds(file, s, n).snd.place == Returned
    decreases n
  {
    RoundAdvances(file, s);
    var u := Round(file, s);
    if u.snd.place == Returned {
      assert Rounds(file, u, n - 1) == u;
    } else {
      RoundsFinish(file, u, n - 1);
    }
  }

  // ----- When the sender can still return -----

  ghost predicate CompleteReplyInFlight(s: Sys) {
    exists k :: s.cursor <= k < |s.acks| && Bottom(s.acks[k]) >= s.snd.buffer.limit
  }

  ghost predicate CanReturn(file: seq<Byte>, s: Sys)
    requires SysOk(file, s)
  {
    exists t :: Reaches(file, s, t) && t.snd.place == Returned
  }

  lemma {:induction false} DeafForever(file: seq<Byte>, s: Sys, run: seq<Event>, t: Sys)
    requires Inv(file, s) && Leads(file, s, run, t)
    requires s.snd.place != Returned && s.rcv.phase == Closed && !CompleteReplyInFlight(s)
    ensures t.snd.place != Returned
    decreases |run|
  {
    if run != [] {
      var u := Apply(file, s, run[0]);
      StepKeeps(file, s, run[0]);
      if run[0].DoAck? {
        FastInWindow(file, s, run[0].k);
      }
      DeafForever(file, u, run[1..], t);
    }
  }

  lemma ReplyReturns(file: seq<Byte>, s: Sys, k: nat)
    requires Inv(file, s) && Enabled(s, DoAck(k)) && Bottom(s.acks[k]) >= s.snd.buffer.limit
    ensures CanReturn(file, s)
  {
    ReachesStep(file, s, DoAck(k));
    FastInWindow(file, s, k);
    assert Apply(file, s, DoAck(k)).snd.place == Returned;
  }

  /** In a reachable state the sender can still return exactly when it has returned, or the
      receiver still answers, or a complete reply is still in flight. */
  lemma CanReturnIff(file: seq<Byte>, s: Sys)
    requires FileOk(file) && Reachable(file, s)
    ensures CanReturn(file, s) <==>
              s.snd.place == Returned || s.rcv.phase != Closed || CompleteReplyInFlight(s)
  {
    ReachableInv(file, s);
    if s.snd.place == Returned {
      ReachesSelf(file, s);
    } else if s.rcv.phase != Closed {
      var t := FillWindow(file, s);
      var n := PacketCount(|file|) + 1;
      RoundsFinish(file, t, n);
      ReachesOn(file, s, t, Rounds(file, t, n));
    } else if CompleteReplyInFlight(s) {
      var t := FillWindow(file, s);
      var k :| s.cursor <= k < |s.acks| && Bottom(s.acks[k]) >= s.snd.buffer.limit;
      ReplyReturns(file, t, k);
      var u :| Reaches(file, t, u) && u.snd.place == Returned;
      ReachesOn(file, s, t, u);
    } else {
      forall t | Reaches(file, s, t) ensures t.snd.place != Returned {
        var run :| Leads(file, s, run, t);
        DeafForever(file, s, run, t);
      }
    }
  }
}
