/** `receiver`: packets are accepted in any order and written out block by block. */
module Receivers {
  import opened AckTable
  import opened FileRing
  import opened DatagramAcks
  import opened Windows

  datatype Datagram = Datagram(seqIndex: nat, data: Payload)

  /** Receiving is the main loop, Closing the echo loop behind `endOfRecv`, Aborted a failed
      assertion of the window. */
  datatype Phase = Receiving | Closing | Closed | Aborted

  datatype Rcv = Rcv(length: nat, reply: Ack, buffer: Ring, writeEdge: nat,
                     written: seq<Byte>, phase: Phase)

  ghost predicate RcvOk(r: Rcv) {
    && r.length > 0
    && r.buffer.limit == PacketCount(r.length)
    && Aligned(r.buffer)
    && (r.phase == Receiving ==>
          r.buffer.base < r.buffer.limit && r.writeEdge == Min(r.buffer.limit, r.buffer.base + SLOTS))
  }

  /** `write_edge` starts at SLOTS, uncapped: the file must fill at least one block. */
  function Start(length: nat): (r: Rcv)
    requires length >= SLOTS * SINGLE_LENGTH
    ensures RcvOk(r)
  {
    Rcv(length, EMPTY, Ring(0, PacketCount(length), seq(RING * SINGLE_LENGTH, _ => 0)), SLOTS, [], Receiving)
  }

  /** The byte count handed to `fwrite`. */
  function WriteLength(r: Rcv): (n: nat)
    requires RcvOk(r) && r.phase == Receiving
    ensures n <= SLOTS * SINGLE_LENGTH
    ensures CellOffset(r.buffer.base) + n <= |r.buffer.mem|
    ensures r.buffer.base * SINGLE_LENGTH + n == Min(r.length, SINGLE_LENGTH * r.writeEdge)
  {
    HalfRing(r.buffer);
    Min(r.length, SINGLE_LENGTH * r.writeEdge) - r.buffer.base * SINGLE_LENGTH
  }

  function Flush(r: Rcv): (f: Rcv)
    requires RcvOk(r) && r.phase == Receiving
    ensures RcvOk(f)
  {
    var base := r.buffer.base + SLOTS;
    NextAligned(r.buffer.base);
    r.(written := r.written + Block(r.buffer, WriteLength(r)),
       writeEdge := Min(r.buffer.limit, r.writeEdge + SLOTS),
       buffer := r.buffer.(base := base),
       phase := if base >= r.buffer.limit then Closing else Receiving)
  }

  /** The packet is refused, or its cell is in the window. */
  predicate StoreSafe(r: Rcv, seqIndex: nat) {
    Update(r.reply, seqIndex).accepted ==> InWindow(r.buffer, seqIndex)
  }

  /** One datagram: accept it or refuse it, and flush at most one block. The reply is sent
      whatever happens, unless the receiver aborts. */
  function OnData(r: Rcv, d: Datagram): (r': Rcv)
    requires RcvOk(r)
    ensures RcvOk(r')
  {
    if r.phase != Receiving then r
    else
      var o := Update(r.reply, d.seqIndex);
      if !o.accepted then r
      else if !InWindow(r.buffer, d.seqIndex) then r.(reply := o.ack, phase := Aborted)
      else
        var s := r.(reply := o.ack, buffer := Store(r.buffer, d.seqIndex, d.data));
        if Bottom(o.ack) >= r.writeEdge then Flush(s) else s
  }

  class Receiver {
    const length: nat
    const reply: DatagramAck
    const buffer: Window
    var writeEdge: nat
    var written: seq<Byte>
    var phase: Phase

    ghost predicate Valid()
      reads this, reply, reply.naks, buffer, buffer.data
    {
      && reply.Valid()
      && buffer.Valid()
      && RcvOk(View())
    }

    ghost function View(): Rcv
      requires buffer.Valid()
      reads this, reply, buffer, buffer.data
    {
      Rcv(length, reply.view, buffer.View(), writeEdge, written, phase)
    }

    constructor (length: nat)
      requires length >= SLOTS * SINGLE_LENGTH
      ensures Valid() && View() == Start(length)
      ensures fresh(reply) && fresh(reply.naks) && fresh(buffer) && fresh(buffer.data)
    {
      this.length := length;
      reply := new DatagramAck();
      buffer := new Window(PacketCount(length));
      writeEdge := SLOTS;
      written := [];
      phase := Receiving;
    }

    /** One round of the main loop; `sent` is the reply put on the wire. */
    method Receive(seqIndex: Uint32, data: Payload) returns (sent: DatagramAck)
      requires Valid() && phase == Receiving
      requires seqIndex < NO_NAK && StoreSafe(View(), seqIndex as nat)
      modifies this, reply, reply.naks, buffer, buffer.data
      ensures Valid()
      ensures View() == OnData(old(View()), Datagram(seqIndex as nat, data))
      ensures fresh(sent) && fresh(sent.naks) && sent.Valid() && sent.view == View().reply
    {
      var isAckValid := reply.Update(seqIndex);
      if isAckValid {
        buffer.Store(seqIndex as nat, data);
        if reply.BottomAck() >= writeEdge {
          FlushBlock();
        }
      }
      sent := Echo();
    }

    /** Write the block below the edge and move both edges on. */
    method FlushBlock()
      requires Valid() && phase == Receiving
      modifies this, buffer`base
      ensures Valid() && View() == Flush(old(View()))
    {
      assert WriteLength(View()) <= SLOTS * SINGLE_LENGTH;
      var writeLength := Min(length, SINGLE_LENGTH * writeEdge) - buffer.base * SINGLE_LENGTH;
      var bytes := buffer.WriteTo(writeLength);
      written := written + bytes;
      writeEdge := Min(buffer.limit, writeEdge + SLOTS);
      buffer.Push(SLOTS);
      if buffer.Empty() {
        phase := Closing;
      }
    }

    /** `server.send(&reply, sizeof(reply))`, also the whole of the closing loop's answer. */
    method Echo() returns (sent: DatagramAck)
      requires Valid()
      ensures fresh(sent) && fresh(sent.naks) && sent.Valid() && sent.view == View().reply
    {
      sent := new DatagramAck();
      sent.CopyFrom(reply);
    }
  }
}
