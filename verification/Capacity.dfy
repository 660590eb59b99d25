/** When the receiver refuses a packet it has not got: the NAK table's 16 slots against the 18 holes the
    sender's windows allow. */
module Capacity {
  import opened AckTable
  import opened FileRing
  import opened Receivers
  import opened Senders
  import opened Protocol
  import opened Invariant
  import opened Safety
  import opened Scenarios

  /** Packet i has been sent, the receiver lacks it and would refuse it. */
  ghost predicate Refuses(s: Sys, i: nat) {
    i < s.snd.sendSeq && !Holds(s.rcv.reply, i) && !Update(s.rcv.reply, i).accepted
  }

  /** Both sides know of the same holes, and the sender waits. */
  ghost predicate Agreed(file: seq<Byte>, s: Sys, a: Ack)
    requires FileOk(file)
  {
    && Built(file, 0, s) && Enabled(s, DoTimeout)
    && s.snd.total == s.rcv.reply == a && s.rcv.phase == Receiving
  }

  /** Packet i arrives and is acknowledged, while packet 0 is missing. */
  lemma AgreeOn(file: seq<Byte>, s: Sys, i: nat) returns (t: Sys)
    requires FileOk(file) && Agreed(file, s, s.rcv.reply) && i < s.snd.sendSeq
    requires Bottom(Update(s.rcv.reply, i).ack) == 0
    ensures Agreed(file, t, Update(s.rcv.reply, i).ack)
    ensures t.snd.sendSeq == Min(t.snd.total.mainAck + SOFT_WIND, HARD_WIND)
  {
    InFile(file, RING - 1);
    ReachableInv(file, s);
    WaitingSent(file, s);
    var d, u := Arrive(file, 0, s, i);
    t := TakeReply(file, 0, u);
    WaitingSent(file, t);
  }

  /** The first h packets are lost, packet h arrives and is acknowledged, and the sender fills its
      windows: of what it then sends, the last packet is refused if h is 3 or more. */
  lemma FirstPacketsLost(file: seq<Byte>, h: nat) returns (s: Sys)
    requires FileOk(file) && 0 < h < SOFT_WIND
    ensures Agreed(file, s, Ack(h + 1, Range(0, h)))
    ensures s.snd.sendSeq == Min(h + 1 + SOFT_WIND, HARD_WIND)
  {
    InFile(file, RING - 1);
    var s0 := InOrder(file, 0);
    WaitingSent(file, s0);
    assert [] + Range(0, h) == Range(0, h);
    s := AgreeOn(file, s0, h);
  }

  /** A last reply with h holes, 3 to 16, after which packet 19 or an earlier one is refused. */
  lemma RefusedWith(file: seq<Byte>, h: nat) returns (s: Sys)
    requires FileOk(file) && 2 < h <= NAK_SIZE
    ensures Reachable(file, s) && |s.snd.total.naks| == h
    ensures s.snd.sendSeq > 0 && Refuses(s, s.snd.sendSeq - 1)
  {
    if h < SOFT_WIND {
      s := FirstPacketsLost(file, h);
    } else {
      var r := FirstPacketsLost(file, SOFT_WIND - 1);
      s := AgreeOn(file, r, h + 1);
    }
  }

  /** Whether a new packet can be refused depends on the number of holes in the sender's last reply
      alone: never with 2 or fewer, and in some reachable state with any larger number the table holds. */
  lemma RefusalIff(file: seq<Byte>, h: nat)
    requires FileOk(file)
    ensures (exists s, i :: Reachable(file, s) && |s.snd.total.naks| == h && Refuses(s, i)) <==> 2 < h <= NAK_SIZE
  {
    if 2 < h <= NAK_SIZE {
      var s := RefusedWith(file, h);
      var i := s.snd.sendSeq - 1;
      assert Refuses(s, i);
    } else {
      forall s, i: nat | Reachable(file, s) && |s.snd.total.naks| == h && i < s.snd.sendSeq ensures !Refuses(s, i) {
        ReachableInv(file, s);
        HolesInFlight(file, s, i);
      }
    }
  }

  /** The bound of 18 holes below a sent packet is reached. */
  lemma EighteenHoles(file: seq<Byte>) returns (s: Sys, i: nat)
    requires FileOk(file)
    ensures Reachable(file, s) && i < s.snd.sendSeq && |Missing(Received(s.rcv.reply), i)| == 18
  {
    s := FirstPacketsLost(file, 4);
    i := s.snd.sendSeq - 1;
    ReachableInv(file, s);
    HolesBelow(s.rcv.reply, i);
  }
}
