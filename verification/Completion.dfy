/** The receiver flushes at most one block per accepted packet. Whether it then always finishes
    depends on the size of the last block alone. */
module Completion {
  import opened AckTable
  import opened FileRing
  import opened Receivers
  import opened Senders
  import opened Protocol
  import opened Invariant
  import opened Safety
  import opened Liveness
  import opened Scenarios

  /** The last block is full, or no window of 20 packets spans it. */
  predicate TailFits(count: nat) {
    count % SLOTS == 0 || count % SLOTS >= HARD_WIND
  }

  ghost predicate HoldsAll(file: seq<Byte>, a: Ack)
    requires |file| > 0
  {
    forall i: nat | i < PacketCount(|file|) :: Holds(a, i)
  }

  /** The receiver holds every packet but has not written the last block, and waits. */
  ghost predicate Stalled(s: Sys) {
    s.rcv.phase == Receiving && Bottom(s.rcv.reply) >= s.rcv.buffer.limit
  }

  lemma HoldsAllIffBottom(file: seq<Byte>, s: Sys)
    requires Inv(file, s)
    ensures HoldsAll(file, s.rcv.reply) <==> Bottom(s.rcv.reply) == PacketCount(|file|)
  {
    BottomIsLeastMissing(s.rcv.reply);
  }

  // ----- The last block fits: one edge per packet -----

  lemma ShortTail(limit: nat, base: nat)
    requires base % SLOTS == 0 && base < limit < base + HARD_WIND
    ensures !TailFits(limit)
  {
    assert limit % SLOTS == limit - base;
  }

  /** After every step the least missing packet lies before the write edge or the receiver has
      left its main loop; so accepting the last missing packet finishes the file. */
  lemma OneEdgePerPacket(file: seq<Byte>, s: Sys)
    requires FileOk(file) && Reachable(file, s) && TailFits(PacketCount(|file|))
    ensures s.rcv.phase == Receiving ==> Bottom(s.rcv.reply) < s.rcv.writeEdge
    ensures HoldsAll(file, s.rcv.reply) <==> s.rcv.phase != Receiving
    ensures HoldsAll(file, s.rcv.reply) ==> s.rcv.written == file
  {
    ReachableInv(file, s);
    HoldsAllIffBottom(file, s);
    WrittenIsFile(file, s);
    if s.rcv.phase == Receiving && Bottom(s.rcv.reply) >= s.rcv.writeEdge {
      ShortTail(s.rcv.buffer.limit, s.rcv.buffer.base);
    }
  }

  // ----- The last block is short: the tail can stay unwritten for ever -----

  lemma {:induction false} StalledForever(file: seq<Byte>, s: Sys, run: seq<Event>, t: Sys)
    requires Inv(file, s) && Stalled(s) && Leads(file, s, run, t)
    ensures Stalled(t) && t.rcv == s.rcv && t.rcv.written != file
    decreases |run|
  {
    if run == [] {
      InFile(file, s.rcv.buffer.base);
    } else {
      StepKeeps(file, s, run[0]);
      if run[0].DoData? {
        UpdateGrows(s.rcv.reply, run[0].d.seqIndex);
        BottomIsLeastMissing(s.rcv.reply);
      }
      StalledForever(file, Apply(file, s, run[0]), run[1..], t);
    }
  }

  /** The edge before the last packet but 20 is the start of the last block. */
  lemma EdgeBeforeTail(limit: nat, base: nat, j: nat)
    requires !TailFits(limit) && j + HARD_WIND == limit
    requires base % SLOTS == 0 && base <= j < Min(limit, base + SLOTS)
    ensures Min(limit, base + SLOTS) == base + SLOTS < limit
  {
    var x := limit - base;
    SameRemainder(base, x);
    assert x % SLOTS == if x < SLOTS then x else x - SLOTS;
  }

  lemma SameRemainder(base: nat, x: nat)
    requires base % SLOTS == 0
    ensures (base + x) % SLOTS == x % SLOTS
  {
  }

  lemma TailStalls(file: seq<Byte>) returns (t: Sys)
    requires FileOk(file) && !TailFits(PacketCount(|file|))
    ensures Reachable(file, t) && HoldsAll(file, t.rcv.reply) && Stalled(t)
  {
    var count := PacketCount(|file|);
    InFile(file, RING - 1);
    var j := count - HARD_WIND;
    var s := AllButOne(file, j);
    ReachableInv(file, s);
    EdgeBeforeTail(count, s.rcv.buffer.base, j);
    var d, u := Arrive(file, 0, s, j);
    t := u;
    assert Update(s.rcv.reply, j) == Outcome(Ack(count, []), true);
  }

  /** Holding every packet means having written the whole file, in every reachable state, exactly
      when the last block is full or holds at least 20 packets. */
  lemma CompletionIff(file: seq<Byte>)
    requires FileOk(file)
    ensures TailFits(PacketCount(|file|)) <==>
              forall s | Reachable(file, s) && HoldsAll(file, s.rcv.reply) :: s.rcv.written == file
  {
    if TailFits(PacketCount(|file|)) {
      forall s | Reachable(file, s) && HoldsAll(file, s.rcv.reply) ensures s.rcv.written == file {
        OneEdgePerPacket(file, s);
      }
    } else {
      var t := TailStalls(file);
      ReachableInv(file, t);
      assert Leads(file, t, [], t);
      StalledForever(file, t, [], t);
    }
  }

  /** In that case every transfer can be finished: from any reachable state in which the receiver
      still answers, loss-free rounds end with the sender returned and the whole file written. */
  lemma TransferCompletes(file: seq<Byte>, s: Sys) returns (t: Sys)
    requires FileOk(file) && Reachable(file, s) && TailFits(PacketCount(|file|))
    requires s.rcv.phase != Closed
    ensures Reaches(file, s, t) && t.snd.place == Returned && t.rcv.written == file
  {
    ReachableInv(file, s);
    CanReturnIff(file, s);
    t :| Reaches(file, s, t) && t.snd.place == Returned;
    Extend(file, s, t);
    SenderViewIsSound(file, t);
    OneEdgePerPacket(file, t);
  }

  // ----- The sender can be left without an answer -----

  lemma {:induction false} LoseReplies(file: seq<Byte>, s: Sys) returns (t: Sys)
    requires FileOk(file) && Built(file, 0, s)
    ensures Built(file, 0, t) && t == s.(cursor := |s.acks|)
    decreases |s.acks| - s.cursor
  {
    ReachableInv(file, s);
    if s.cursor == |s.acks| {
      t := s;
    } else {
      BuiltStep(file, 0, s, DoLoseAck);
      t := LoseReplies(file, Apply(file, s, DoLoseAck));
    }
  }

  /** The last packet in order completes the file, and the receiver leaves its main loop. */
  lemma LastInOrder(file: seq<Byte>) returns (t: Sys)
    requires FileOk(file)
    ensures Built(file, 0, t) && t.snd.place == Gate && t.rcv.phase == Closing
  {
    InFile(file, RING - 1);
    var count := PacketCount(|file|);
    var s := InOrder(file, count - 1);
    WaitingSent(file, s);
    ReachableInv(file, s);
    var d, u := Arrive(file, 0, s, count - 1);
    t := u;
    assert Update(s.rcv.reply, count - 1) == Outcome(Ack(count, []), true);
  }

  /** For every file a run exists that writes it whole and leaves the sender waiting for ever: the
      receiver's closing loop ends when the replies to the last packets are lost. */
  lemma SenderStranded(file: seq<Byte>) returns (t: Sys)
    requires FileOk(file)
    ensures Reachable(file, t) && t.rcv.written == file && !CanReturn(file, t)
  {
    var s := LastInOrder(file);
    var u := LoseReplies(file, s);
    BuiltStep(file, 0, u, DoClose);
    t := Apply(file, u, DoClose);
    WrittenIsFile(file, t);
    CanReturnIff(file, t);
  }
}
