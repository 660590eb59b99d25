/** Reachable states built step by step, for showing that bounds are reached. The number n of timeouts
    on the way is carried along. */
module Scenarios {
  import opened AckTable
  import opened FileRing
  import opened Receivers
  import opened Senders
  import opened Protocol
  import opened Invariant
  import opened Liveness

  lemma Extend(file: seq<Byte>, s: Sys, t: Sys)
    requires FileOk(file) && Reachable(file, s) && Reaches(file, s, t)
    ensures Reachable(file, t) && Inv(file, t)
  {
    ReachesOn(file, Initial(file), s, t);
    ReachableInv(file, t);
  }

  /** Reached with at most n timeouts, and with some datagram of every packet sent not lost. */
  ghost predicate Built(file: seq<Byte>, n: nat, s: Sys): (b: bool)
    requires FileOk(file)
    ensures b ==> ReachableWithin(file, n, s) && Reachable(file, s)
  {
    ReachableWithin(file, n, s) && Intact(s)
  }

  lemma BuiltStep(file: seq<Byte>, n: nat, s: Sys, e: Event)
    requires FileOk(file) && Built(file, n, s) && Enabled(s, e) && !e.DoLoseData?
    ensures Built(file, if e.DoTimeout? then n + 1 else n, Apply(file, s, e))
  {
    hide Inv, Apply, ReachableWithin, Intact;
    ReachableInv(file, s);
    WithinStep(file, n, s, e);
    StepKeepsIntact(file, s, e);
  }

  /** Filling the windows takes no timeout. */
  lemma {:induction false} FillWithin(file: seq<Byte>, n: nat, s: Sys)
    requires FileOk(file) && Built(file, n, s) && Inv(file, s) && (s.snd.place == Head || s.snd.place == Gate)
    ensures Built(file, n, FillWindow(file, s))
    decreases s.snd.buffer.limit - s.snd.sendSeq, s.snd.place == Head
  {
    if !(s.snd.place == Gate && Blocked(s.snd)) {
      OwnMove(file, s);
      FillWindowStep(file, s);
      hide Apply, FillWindow, Inv;
      BuiltStep(file, n, s, NextMove(s));
      FillWithin(file, n, Apply(file, s, NextMove(s)));
    }
  }

  /** The datagram of a sent packet reaches the receiver in its main loop. */
  lemma Arrive(file: seq<Byte>, n: nat, s: Sys, i: nat) returns (d: Datagram, t: Sys)
    requires FileOk(file) && Built(file, n, s) && s.rcv.phase == Receiving && i < s.snd.sendSeq
    ensures d.seqIndex == i && Enabled(s, DoData(d)) && t == Apply(file, s, DoData(d))
    ensures Built(file, n, t) && t.snd == s.snd && t.cursor == s.cursor
    ensures t.rcv.reply == Update(s.rcv.reply, i).ack && t.acks == s.acks + [t.rcv.reply]
    ensures Bottom(t.rcv.reply) < t.rcv.buffer.limit ==> t.rcv.phase == Receiving
    ensures t.rcv.buffer.limit == s.rcv.buffer.limit
  {
    ReachableInv(file, s);
    assert SentPacket(s.data, i);
    d :| d in s.data && d.seqIndex == i;
    t := Apply(file, s, DoData(d));
    Delivered(file, s, d);
    BuiltStep(file, n, s, DoData(d));
    UpdateGrows(s.rcv.reply, i);
    if Update(s.rcv.reply, i).accepted {
      AcceptedBounds(file, s, d);
    }
  }

  /** The sender reads the newest reply. */
  lemma ReadNewest(file: seq<Byte>, n: nat, s: Sys) returns (t: Sys)
    requires FileOk(file) && Built(file, n, s) && Enabled(s, DoTimeout) && Answered(s)
    requires Bottom(s.rcv.reply) < s.snd.buffer.limit
    ensures Inv(file, s) && t == LastReply(file, s) && Inv(file, t)
    ensures Built(file, n, t) && t.snd.place == Head
    ensures t.rcv == s.rcv && t.acks == s.acks && t.cursor <= |t.acks|
    ensures t.snd.total == s.rcv.reply && t.snd.sendSeq == s.snd.sendSeq
  {
    ReachableInv(file, s);
    t := LastReply(file, s);
    LastReplyRead(file, s);
    LastReplyStep(file, s);
    hide Inv, Reaches, Apply;
    BuiltStep(file, n, s, DoAck(|s.acks| - 1));
  }

  /** Then it sends what its windows allow. */
  lemma TakeReply(file: seq<Byte>, n: nat, s: Sys) returns (t: Sys)
    requires FileOk(file) && Built(file, n, s) && Enabled(s, DoTimeout) && Answered(s)
    requires Bottom(s.rcv.reply) < s.snd.buffer.limit
    ensures Built(file, n, t) && Enabled(t, DoTimeout)
    ensures t.rcv == s.rcv && t.snd.total == s.rcv.reply && t.cursor <= |t.acks|
  {
    var u := ReadNewest(file, n, s);
    t := FillWindow(file, u);
    FillWithin(file, n, u);
  }

  /** Both sides have seen the first m packets and no others, and the sender waits. */
  ghost predicate InStep(file: seq<Byte>, s: Sys, m: nat)
    requires FileOk(file)
  {
    && Built(file, 0, s) && Enabled(s, DoTimeout)
    && s.snd.total == Ack(m, []) && s.rcv.reply == Ack(m, [])
    && s.rcv.phase == Receiving
  }

  /** What is sent when the sender waits: 15 packets past its mark, 20 past the least missing one,
      or everything. */
  lemma WaitingSent(file: seq<Byte>, s: Sys)
    requires FileOk(file) && Reachable(file, s) && Enabled(s, DoTimeout)
    ensures s.snd.sendSeq ==
              Min(PacketCount(|file|), Min(s.snd.total.mainAck + SOFT_WIND, Bottom(s.snd.total) + HARD_WIND))
    ensures s.snd.buffer.limit == s.rcv.buffer.limit == PacketCount(|file|)
  {
    ReachableInv(file, s);
  }

  lemma Started(file: seq<Byte>)
    requires FileOk(file)
    ensures Built(file, 0, Initial(file)) && Inv(file, Initial(file))
  {
    InitialInv(file);
    assert Leads(file, Initial(file), [], Initial(file));
  }

  lemma {:induction false} InOrder(file: seq<Byte>, m: nat) returns (s: Sys)
    requires FileOk(file) && m < PacketCount(|file|)
    ensures InStep(file, s, m)
  {
    if m == 0 {
      Started(file);
      s := FillWindow(file, Initial(file));
      FillWithin(file, 0, Initial(file));
    } else {
      var r := InOrder(file, m - 1);
      WaitingSent(file, r);
      var d, t := Arrive(file, 0, r, m - 1);
      ReachableInv(file, r);
      s := TakeReply(file, 0, t);
    }
  }

  /** Packets n to hi - 1 arrive in order while packet j alone is missing. */
  lemma {:induction false} ArriveAbove(file: seq<Byte>, k: nat, s: Sys, j: nat, n: nat, hi: nat) returns (t: Sys)
    requires FileOk(file) && Built(file, k, s) && s.rcv.phase == Receiving
    requires j + 1 < n <= hi <= s.snd.sendSeq && s.rcv.reply == Ack(n, [j]) && j < s.rcv.buffer.limit
    ensures Built(file, k, t) && t.rcv.phase == Receiving && t.snd == s.snd && t.cursor == s.cursor
    ensures t.rcv.reply == Ack(hi, [j]) && t.rcv.buffer.limit == s.rcv.buffer.limit
    ensures |t.acks| == |s.acks| + (hi - n)
    ensures if hi > n then t.acks[|t.acks| - 1] == t.rcv.reply else t == s
    decreases hi - n
  {
    NextAbove(j, n);
    hide *;
    if n == hi {
      t := s;
    } else {
      var d, u := Arrive(file, k, s, n);
      t := ArriveAbove(file, k, u, j, n + 1, hi);
    }
  }

  lemma NextAbove(j: nat, n: nat)
    ensures Update(Ack(n, [j]), n).ack == Ack(n + 1, [j]) && Bottom(Ack(n + 1, [j])) == j
  {
  }

  /** Everything but packet j = count - 20 has arrived: the sender's windows allow it, since a NAK
      for j lets the mark move on. */
  lemma AllButOne(file: seq<Byte>, j: nat) returns (s: Sys)
    requires FileOk(file) && j + HARD_WIND == PacketCount(|file|)
    ensures Built(file, 0, s) && s.rcv.phase == Receiving && Enabled(s, DoTimeout)
    ensures s.snd.total == Ack(j + SOFT_WIND, [j]) && Answered(s)
    ensures s.rcv.reply == Ack(PacketCount(|file|), [j]) && s.snd.sendSeq == PacketCount(|file|)
  {
    var s0 := InOrder(file, j);
    WaitingSent(file, s0);
    var d, s1 := Arrive(file, 0, s0, j + 1);
    assert s1.rcv.reply == Ack(j + 2, [j]);
    var s2 := ArriveAbove(file, 0, s1, j, j + 2, j + SOFT_WIND);
    ReachableInv(file, s0);
    var s3 := TakeReply(file, 0, s2);
    WaitingSent(file, s3);
    s := ArriveAbove(file, 0, s3, j, j + SOFT_WIND, j + HARD_WIND);
  }
}
