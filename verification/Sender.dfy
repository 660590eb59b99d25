/** `sender`: two windows, a queue of lost packets with trigger marks, fast retransmission of
    new NAKs and a timeout pass. */
module Senders {
  import opened AckTable
  import opened FileRing
  import opened DatagramAcks
  import opened Windows
  import opened Receivers

  const SOFT_WIND: nat := 15
  const HARD_WIND: nat := 20

  datatype LostPack = LostPack(seqIndex: nat, triggerAck: nat)

  /** Where the loop stands: before the scan for lost packets, at the choice between receiving
      and sending, returned, or stopped by a failed assertion of the window. */
  datatype Place = Head | Gate | Returned | Failed

  datatype Snd = Snd(total: Ack, buffer: Ring, lost: seq<LostPack>, sendSeq: nat,
                     isTimeout: bool, writeEdge: nat, pos: nat, place: Place)

  ghost predicate SndOk(s: Snd, file: seq<Byte>) {
    && |file| > 0
    && s.buffer.limit == PacketCount(|file|)
    && Aligned(s.buffer)
    && s.pos <= |file|
  }

  /** The first `fread` must fill two blocks; the sender asserts it. */
  function StartSender(file: seq<Byte>): (s: Snd)
    requires |file| >= RING * SINGLE_LENGTH
    ensures SndOk(s, file)
  {
    var count := PacketCount(|file|);
    var empty := Ring(0, count, seq(RING * SINGLE_LENGTH, _ => 0));
    Snd(EMPTY, Fread(empty, file, 0, RING * SINGLE_LENGTH), [], 0, false, Min(count, SLOTS),
        RING * SINGLE_LENGTH, Head)
  }

  // ----- Scanning for lost packets -----

  /** `main_ack + 4` on 32-bit unsigned integers: the mark at which a packet sent again counts as
      lost again. */
  function PlusFour(mark: nat): nat {
    if mark < 0xFFFF_FFFC then mark + 4 else mark - 0xFFFF_FFFC
  }

  datatype Scanned = Scanned(lost: seq<LostPack>, resent: seq<nat>)

  /** At most `count` entries are taken from the front: an acked one is dropped, another one is
      sent again and queued behind with a later trigger; without a timeout the scan stops at the
      first entry whose trigger is not reached. */
  function ScanQueue(total: Ack, lost: seq<LostPack>, count: nat, isTimeout: bool): (r: Scanned)
    requires count <= |lost|
    decreases count
  {
    if count == 0 || (!isTimeout && total.mainAck < lost[0].triggerAck) then
      Scanned(lost, [])
    else if Holds(total, lost[0].seqIndex) then
      ScanQueue(total, lost[1..], count - 1, isTimeout)
    else
      var again := LostPack(lost[0].seqIndex, PlusFour(total.mainAck));
      var r := ScanQueue(total, lost[1..] + [again], count - 1, isTimeout);
      Scanned(r.lost, [lost[0].seqIndex] + r.resent)
  }

  /** What a timeout resends besides the queue: everything from the mark on. */
  function Outstanding(s: Snd): seq<nat> {
    if s.isTimeout && s.total.mainAck <= s.sendSeq then Range(s.total.mainAck, s.sendSeq) else []
  }

  function OutstandingPacks(s: Snd): seq<LostPack> {
    var o := Outstanding(s);
    seq(|o|, k requires 0 <= k < |o| => LostPack(o[k], o[k] + 4))
  }

  /** All the packets one scan sends, in order. */
  function ScanIndices(s: Snd): seq<nat> {
    ScanQueue(s.total, s.lost, |s.lost|, s.isTimeout).resent + Outstanding(s)
  }

  predicate AllInWindow(w: Ring, indices: seq<nat>) {
    forall i | i in indices :: InWindow(w, i)
  }

  function Datagrams(w: Ring, indices: seq<nat>): seq<Datagram> {
    seq(|indices|, k requires 0 <= k < |indices| => Datagram(indices[k], Cell(w.mem, indices[k])))
  }

  function Scan(s: Snd): Snd {
    if AllInWindow(s.buffer, ScanIndices(s)) then
      s.(lost := ScanQueue(s.total, s.lost, |s.lost|, s.isTimeout).lost + OutstandingPacks(s),
         isTimeout := false, place := Gate)
    else
      s.(place := Failed)
  }

  // ----- The gate -----

  predicate Blocked(s: Snd) {
    || s.sendSeq >= s.buffer.limit
    || s.sendSeq >= s.total.mainAck + SOFT_WIND
    || s.sendSeq >= Bottom(s.total) + HARD_WIND
  }

  function SendNext(s: Snd): Snd {
    if InWindow(s.buffer, s.sendSeq) then s.(sendSeq := s.sendSeq + 1, place := Head)
    else s.(place := Failed)
  }

  function OnTimeout(s: Snd): Snd {
    s.(isTimeout := true, place := Head)
  }

  // ----- An ACK -----

  /** `x - 2` on 32-bit unsigned integers. */
  function MinusTwo(x: nat): nat {
    if x >= 2 then x - 2 else x + 0xFFFF_FFFE
  }

  function AtOrAbove(naks: seq<nat>, mark: nat): (r: seq<nat>)
    ensures forall n :: n in r <==> n in naks && n >= mark
  {
    if naks == [] then []
    else
      var front, last := naks[..|naks| - 1], naks[|naks| - 1];
      assert naks == front + [last];
      if last >= mark then AtOrAbove(front, mark) + [last] else AtOrAbove(front, mark)
  }

  /** The NAKs resent at once: those at or above the old mark, when the mark jumps by 2 or more. */
  function FastIndices(s: Snd, reply: Ack): seq<nat> {
    if s.total.mainAck <= MinusTwo(reply.mainAck) then AtOrAbove(reply.naks, s.total.mainAck) else []
  }

  function Packs(indices: seq<nat>, trigger: nat): seq<LostPack> {
    seq(|indices|, k requires 0 <= k < |indices| => LostPack(indices[k], trigger))
  }

  /** Read the next block of the file over the block below the edge. */
  function RefillBlock(s: Snd, file: seq<Byte>): (r: Snd)
    requires SndOk(s, file)
    ensures SndOk(r, file)
  {
    HalfRing(s.buffer);
    var w := Fread(s.buffer, file, s.pos, SLOTS * SINGLE_LENGTH);
    s.(buffer := w.(base := s.buffer.base + SLOTS), writeEdge := s.writeEdge + SLOTS,
       pos := s.pos + ReadCount(file, s.pos, SLOTS * SINGLE_LENGTH))
  }

  function OnAck(s: Snd, reply: Ack, file: seq<Byte>): (r: Snd)
    requires SndOk(s, file)
    ensures SndOk(r, file)
  {
    var fast := FastIndices(s, reply);
    if !AllInWindow(s.buffer, fast) then s.(place := Failed)
    else
      var t := s.(total := reply, lost := s.lost + Packs(fast, PlusFour(s.total.mainAck)));
      var u := if Bottom(reply) >= s.writeEdge then RefillBlock(t, file) else t;
      u.(place := if Bottom(reply) >= s.buffer.limit then Returned else Head)
  }

  lemma DatagramsConcat(w: Ring, a: seq<nat>, b: seq<nat>)
    ensures Datagrams(w, a + b) == Datagrams(w, a) + Datagrams(w, b)
  {
  }

  lemma NoDatagrams(w: Ring)
    ensures Datagrams(w, []) == []
  {
  }

  lemma OneMoreDatagram(w: Ring, a: seq<nat>, i: nat)
    ensures Datagrams(w, a + [i]) == Datagrams(w, a) + [Datagram(i, Cell(w.mem, i))]
  {
    DatagramsConcat(w, a, [i]);
  }

  /** One round of the scan: it stops, drops the front, or sends it again and queues it behind. */
  lemma ScanUnfolds(total: Ack, lost: seq<LostPack>, count: nat, isTimeout: bool)
    requires count <= |lost|
    ensures var r := ScanQueue(total, lost, count, isTimeout);
            if count == 0 || (!isTimeout && total.mainAck < lost[0].triggerAck) then
              r == Scanned(lost, [])
            else if Holds(total, lost[0].seqIndex) then
              r == ScanQueue(total, lost[1..], count - 1, isTimeout)
            else
              var again := LostPack(lost[0].seqIndex, PlusFour(total.mainAck));
              var t := ScanQueue(total, lost[1..] + [again], count - 1, isTimeout);
              r == Scanned(t.lost, [lost[0].seqIndex] + t.resent)
  {
  }

  lemma Reassociate(a: seq<nat>, i: nat, goal: seq<nat>)
    ensures forall b | goal == a + ([i] + b) :: goal == (a + [i]) + b
  {
  }

  // ----- The same, in place -----

  class Sender {
    const file: seq<Byte>
    const total: DatagramAck
    const buffer: Window
    var lost: seq<LostPack>
    var sendSeq: nat
    var isTimeout: bool
    var writeEdge: nat
    var pos: nat
    var place: Place

    ghost predicate Valid()
      reads this, total, total.naks, buffer, buffer.data
    {
      && total.Valid()
      && buffer.Valid()
      && SndOk(View(), file)
    }

    ghost function View(): Snd
      requires buffer.Valid()
      reads this, total, buffer, buffer.data
    {
      Snd(total.view, buffer.View(), lost, sendSeq, isTimeout, writeEdge, pos, place)
    }

    constructor (file: seq<Byte>)
      requires |file| >= RING * SINGLE_LENGTH
      ensures Valid() && View() == StartSender(file) && this.file == file
      ensures fresh(total) && fresh(total.naks) && fresh(buffer) && fresh(buffer.data)
    {
      this.file := file;
      total := new DatagramAck();
      buffer := new Window(PacketCount(|file|));
      lost, sendSeq, isTimeout := [], 0, false;
      writeEdge := Min(PacketCount(|file|), SLOTS);
      place := Head;
      new;
      pos := buffer.ReadFrom(file, 0, RING * SINGLE_LENGTH);
    }

    /** `send_data` for packet i, read from the window. */
    method Make(i: nat) returns (d: Datagram)
      requires buffer.Valid() && InWindow(buffer.View(), i)
      ensures d == Datagram(i, Cell(buffer.View().mem, i))
    {
      var p := buffer.Load(i);
      d := Datagram(i, p);
    }

    /** The scan of the lost queue and, after a timeout, of everything outstanding. */
    method ScanLost() returns (sent: seq<Datagram>)
      requires Valid() && place == Head
      requires AllInWindow(buffer.View(), ScanIndices(View()))
      modifies this
      ensures Valid() && View() == Scan(old(View()))
      ensures sent == Datagrams(buffer.View(), ScanIndices(old(View())))
    {
      ghost var s := View();
      assert forall i | i in ScanQueue(s.total, s.lost, |s.lost|, s.isTimeout).resent || i in Outstanding(s) ::
          i in ScanIndices(s);
      sent := DrainQueue();
      DatagramsConcat(s.buffer, ScanQueue(s.total, s.lost, |s.lost|, s.isTimeout).resent, Outstanding(s));
      if isTimeout {
        var more := ResendOutstanding();
        sent := sent + more;
      }
      isTimeout := false;
      place := Gate;
    }

    method DrainQueue() returns (sent: seq<Datagram>)
      requires Valid()
      requires AllInWindow(buffer.View(), ScanQueue(total.view, lost, |lost|, isTimeout).resent)
      modifies `lost
      ensures lost == ScanQueue(total.view, old(lost), |old(lost)|, isTimeout).lost
      ensures sent == Datagrams(buffer.View(), ScanQueue(total.view, old(lost), |old(lost)|, isTimeout).resent)
    {
      hide ScanQueue, Datagrams, SndOk, PlusFour;
      sent := [];
      var mainAck := total.mainAck as nat;
      var count := |lost|;
      ghost var w, goal := buffer.View(), ScanQueue(total.view, lost, count, isTimeout);
      ghost var resent: seq<nat> := [];
      NoDatagrams(w);
      while count > 0
        invariant 0 <= count <= |lost|
        invariant sent == Datagrams(w, resent)
        invariant var r := ScanQueue(total.view, lost, count, isTimeout);
                  goal.lost == r.lost && goal.resent == resent + r.resent
        decreases count
      {
        ScanUnfolds(total.view, lost, count, isTimeout);
        if !isTimeout && mainAck < lost[0].triggerAck {
          break;
        }
        var front := lost[0];
        lost := lost[1..];
        count := count - 1;
        var acked := total.IsAcked(front.seqIndex);
        if !acked {
          assert goal.resent[|resent|] == front.seqIndex;
          Reassociate(resent, front.seqIndex, goal.resent);
          OneMoreDatagram(w, resent, front.seqIndex);
          var d := Make(front.seqIndex);
          sent := sent + [d];
          resent := resent + [front.seqIndex];
          lost := lost + [LostPack(front.seqIndex, PlusFour(mainAck))];
        }
      }
      ScanUnfolds(total.view, lost, count, isTimeout);
      assert goal.resent == resent;
    }

    method ResendOutstanding() returns (sent: seq<Datagram>)
      requires Valid() && isTimeout
      requires AllInWindow(buffer.View(), Outstanding(View()))
      modifies `lost
      ensures lost == old(lost) + OutstandingPacks(old(View()))
      ensures sent == Datagrams(buffer.View(), Outstanding(old(View())))
    {
      sent := [];
      ghost var w, o, packs := buffer.View(), Outstanding(View()), OutstandingPacks(View());
      var index := total.mainAck as nat;
      ghost var k := 0;
      while index < sendSeq
        invariant 0 <= k <= |o| && index == total.mainAck as nat + k
        invariant sent == Datagrams(w, o[..k])
        invariant lost == old(lost) + packs[..k]
        decreases sendSeq - index
      {
        assert o[k] == index && o[k] in o;
        assert o[..k + 1] == o[..k] + [index];
        DatagramsConcat(w, o[..k], [index]);
        var d := Make(index);
        sent := sent + [d];
        lost := lost + [LostPack(index, index + 4)];
        index := index + 1;
        k := k + 1;
      }
      assert o[..k] == o && packs[..k] == packs;
    }

    method IsBlocked() returns (blocked: bool)
      requires Valid()
      ensures blocked <==> Blocked(View())
    {
      blocked := || sendSeq >= buffer.limit
                 || sendSeq >= total.mainAck as nat + SOFT_WIND
                 || sendSeq >= total.BottomAck() + HARD_WIND;
    }

    method Advance() returns (d: Datagram)
      requires Valid() && place == Gate && !Blocked(View())
      requires InWindow(buffer.View(), sendSeq)
      modifies `sendSeq, `place
      ensures Valid() && View() == SendNext(old(View()))
      ensures d == Datagram(old(sendSeq), Cell(buffer.View().mem, old(sendSeq)))
    {
      d := Make(sendSeq);
      sendSeq := sendSeq + 1;
      place := Head;
    }

    method Timeout()
      requires Valid() && place == Gate && Blocked(View())
      modifies `isTimeout, `place
      ensures Valid() && View() == OnTimeout(old(View()))
    {
      isTimeout := true;
      place := Head;
    }

    method Acknowledge(reply: DatagramAck) returns (sent: seq<Datagram>)
      requires Valid() && place == Gate && Blocked(View())
      requires reply.Valid() && reply != total && reply.naks != total.naks
      requires AllInWindow(buffer.View(), FastIndices(View(), reply.view))
      modifies this, total, total.naks, buffer, buffer.data
      ensures Valid() && View() == OnAck(old(View()), reply.view, file)
      ensures sent == old(Datagrams(buffer.View(), FastIndices(View(), reply.view)))
    {
      ghost var s := View();
      sent := FastResend(reply);
      total.CopyFrom(reply);
      assert View() == s.(total := reply.view,
                          lost := s.lost + Packs(FastIndices(s, reply.view), PlusFour(s.total.mainAck)));
      if reply.BottomAck() >= writeEdge {
        ReadBlock();
      }
      place := if reply.BottomAck() >= buffer.limit then Returned else Head;
    }

    method ReadBlock()
      requires Valid()
      modifies `writeEdge, `pos, buffer`base, buffer.data
      ensures Valid() && View() == RefillBlock(old(View()), file)
    {
      ghost var w := buffer.View();
      HalfRing(w);
      var nread := buffer.ReadFrom(file, pos, SLOTS * SINGLE_LENGTH);
      assert buffer.View() == Fread(w, file, pos, SLOTS * SINGLE_LENGTH);
      buffer.Push(SLOTS);
      pos := pos + nread;
      writeEdge := writeEdge + SLOTS;
    }

    method FastResend(reply: DatagramAck) returns (sent: seq<Datagram>)
      requires Valid() && reply.Valid()
      requires AllInWindow(buffer.View(), FastIndices(View(), reply.view))
      modifies `lost
      ensures var fast := FastIndices(old(View()), reply.view);
              && lost == old(lost) + Packs(fast, PlusFour(total.view.mainAck))
              && sent == Datagrams(buffer.View(), fast)
    {
      sent := [];
      var mainAck := total.mainAck as nat;
      var newMark := if reply.mainAck >= 2 then reply.mainAck - 2 else reply.mainAck + 0xFFFF_FFFE;
      if mainAck <= newMark as nat {
        sent := ResendFrom(reply, mainAck);
      }
    }

    method ResendFrom(reply: DatagramAck, mainAck: nat) returns (sent: seq<Datagram>)
      requires Valid() && reply.Valid()
      requires AllInWindow(buffer.View(), AtOrAbove(reply.view.naks, mainAck))
      modifies `lost
      ensures var fast := AtOrAbove(reply.view.naks, mainAck);
              && lost == old(lost) + Packs(fast, PlusFour(mainAck))
              && sent == Datagrams(buffer.View(), fast)
    {
      sent := [];
      ghost var w, naks := buffer.View(), reply.view.naks;
      ghost var done: seq<nat> := [];
      var k := 0;
      while k < NAK_SIZE && reply.naks[k] != NO_NAK
        invariant 0 <= k <= |naks|
        invariant done == AtOrAbove(naks[..k], mainAck)
        invariant sent == Datagrams(w, done)
        invariant lost == old(lost) + Packs(done, PlusFour(mainAck))
        decreases NAK_SIZE - k
      {
        var nak := reply.naks[k] as nat;
        assert naks[k] == nak && naks[..k + 1][..k] == naks[..k];
        if nak >= mainAck {
          assert nak in AtOrAbove(naks, mainAck);
          var d := Make(nak);
          DatagramsConcat(w, done, [nak]);
          assert Packs(done + [nak], PlusFour(mainAck)) ==
                 Packs(done, PlusFour(mainAck)) + [LostPack(nak, PlusFour(mainAck))];
          sent := sent + [d];
          lost := lost + [LostPack(nak, PlusFour(mainAck))];
          done := done + [nak];
        }
        k := k + 1;
      }
      assert naks[..k] == naks;
    }
  }
}
