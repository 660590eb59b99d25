/** Sender, receiver and the network between them as one state machine. A datagram on the wire may be
    delivered late, out of order, more than once, or be lost for good. Replies may be lost or read more
    than once but not reordered, as the sender assumes. */
module Protocol {
  import opened AckTable
  import opened FileRing
  import opened Receivers
  import opened Senders

  /** `data` holds the datagrams sent and not lost, `acks` every reply ever sent in order; those before
      `cursor` have been overtaken or lost, and the sender may read any from `cursor` on. */
  datatype Sys = Sys(snd: Snd, rcv: Rcv, data: set<Datagram>, acks: seq<Ack>, cursor: nat)

  datatype Event =
    | DoScan                  // the sender looks for lost packets
    | DoSend                  // the sender sends the next packet
    | DoTimeout               // the sender's recv times out
    | DoAck(k: nat)           // the sender's recv returns the k-th reply
    | DoData(d: Datagram)     // a datagram reaches the receiver
    | DoClose                 // the receiver's closing loop ends
    | DoLoseData(d: Datagram) // the network loses all copies of a datagram
    | DoLoseAck               // the network loses the oldest reply the sender could still read

  /** What the sender asserts about the file, and 32-bit indices that never equal INACTIVE. */
  ghost predicate FileOk(file: seq<Byte>) {
    && |file| >= RING * SINGLE_LENGTH
    && PacketCount(|file|) < INACTIVE
  }

  ghost predicate SysOk(file: seq<Byte>, s: Sys) {
    && SndOk(s.snd, file)
    && RcvOk(s.rcv)
  }

  ghost function Initial(file: seq<Byte>): (s: Sys)
    requires FileOk(file)
    ensures SysOk(file, s)
  {
    Sys(StartSender(file), Start(|file|), {}, [], 0)
  }

  ghost predicate Enabled(s: Sys, e: Event) {
    match e
    case DoScan => s.snd.place == Head
    case DoSend => s.snd.place == Gate && !Blocked(s.snd)
    case DoTimeout => s.snd.place == Gate && Blocked(s.snd)
    case DoAck(k) => s.snd.place == Gate && Blocked(s.snd) && s.cursor <= k < |s.acks|
    case DoData(d) => d in s.data && (s.rcv.phase == Receiving || s.rcv.phase == Closing)
    case DoClose => s.rcv.phase == Closing
    case DoLoseData(d) => d in s.data
    case DoLoseAck => s.cursor < |s.acks|
  }

  /** The packets the sender puts on the wire. */
  ghost function SentBy(s: Sys, e: Event): seq<nat> {
    match e
    case DoScan => ScanIndices(s.snd)
    case DoSend => [s.snd.sendSeq]
    case DoAck(k) => if k < |s.acks| then FastIndices(s.snd, s.acks[k]) else []
    case _ => []
  }

  ghost function Wire(w: Ring, indices: seq<nat>): set<Datagram> {
    set d | d in Datagrams(w, indices)
  }

  ghost function SenderAfter(file: seq<Byte>, s: Sys, e: Event): (r: Snd)
    requires SysOk(file, s) && Enabled(s, e)
    ensures SndOk(r, file)
  {
    match e
    case DoScan => Scan(s.snd)
    case DoSend => SendNext(s.snd)
    case DoTimeout => OnTimeout(s.snd)
    case DoAck(k) => OnAck(s.snd, s.acks[k], file)
    case _ => s.snd
  }

  ghost function Apply(file: seq<Byte>, s: Sys, e: Event): (r: Sys)
    requires SysOk(file, s) && Enabled(s, e)
    ensures SysOk(file, r)
  {
    var snd := SenderAfter(file, s, e);
    var data := if snd.place == Failed then s.data else s.data + Wire(s.snd.buffer, SentBy(s, e));
    match e
    case DoData(d) =>
      var rcv := OnData(s.rcv, d);
      s.(rcv := rcv, acks := if rcv.phase == Phase.Aborted then s.acks else s.acks + [rcv.reply])
    case DoClose => s.(rcv := s.rcv.(phase := Closed))
    case DoLoseData(d) => s.(data := s.data - {d})
    case DoLoseAck => s.(cursor := s.cursor + 1)
    case DoAck(k) => s.(snd := snd, data := data, cursor := k)
    case _ => s.(snd := snd, data := data)
  }

  /** The sender's part of a step. */
  lemma AppliedSender(file: seq<Byte>, s: Sys, e: Event)
    requires SysOk(file, s) && Enabled(s, e)
    ensures Apply(file, s, e).snd == SenderAfter(file, s, e)
  {
    hide SysOk, OnAck, Scan, SendNext, OnTimeout, OnData, SentBy, Wire;
  }

  // ----- Runs -----

  /** The events of `run`, one after the other, lead from s to t. */
  ghost predicate Leads(file: seq<Byte>, s: Sys, run: seq<Event>, t: Sys): (b: bool)
    requires SysOk(file, s)
    ensures b ==> SysOk(file, t)
    decreases |run|
  {
    if run == [] then s == t
    else Enabled(s, run[0]) && Leads(file, Apply(file, s, run[0]), run[1..], t)
  }

  ghost predicate Reaches(file: seq<Byte>, s: Sys, t: Sys): (b: bool)
    requires SysOk(file, s)
    ensures b ==> SysOk(file, t)
  {
    exists run :: Leads(file, s, run, t)
  }

  ghost predicate Reachable(file: seq<Byte>, t: Sys): (b: bool)
    requires FileOk(file)
    ensures b ==> SysOk(file, t)
  {
    Reaches(file, Initial(file), t)
  }

  function Timeouts(run: seq<Event>): nat {
    if run == [] then 0 else (if run[0].DoTimeout? then 1 else 0) + Timeouts(run[1..])
  }

  /** Some run with at most n timeouts leads from the start to t. */
  ghost predicate ReachableWithin(file: seq<Byte>, n: nat, t: Sys): (b: bool)
    requires FileOk(file)
    ensures b ==> Reachable(file, t)
  {
    exists run :: Leads(file, Initial(file), run, t) && Timeouts(run) <= n
  }

  lemma {:induction false} TimeoutsAdd(a: seq<Event>, e: Event)
    ensures Timeouts(a + [e]) == Timeouts(a) + if e.DoTimeout? then 1 else 0
  {
    if a == [] {
      assert a + [e] == [e];
    } else {
      assert (a + [e])[0] == a[0] && (a + [e])[1..] == a[1..] + [e];
      TimeoutsAdd(a[1..], e);
    }
  }

  lemma WithinStep(file: seq<Byte>, n: nat, s: Sys, e: Event)
    requires FileOk(file) && ReachableWithin(file, n, s) && Enabled(s, e)
    ensures ReachableWithin(file, if e.DoTimeout? then n + 1 else n, Apply(file, s, e))
  {
    hide Apply, Initial;
    var run :| Leads(file, Initial(file), run, s) && Timeouts(run) <= n;
    var t := Apply(file, s, e);
    assert Leads(file, t, [e][1..], t);
    assert Leads(file, s, [e], t);
    LeadsOn(file, Initial(file), run, s, [e], t);
    TimeoutsAdd(run, e);
  }

  lemma {:induction false} LeadsOn(file: seq<Byte>, s: Sys, a: seq<Event>, t: Sys, b: seq<Event>, u: Sys)
    requires SysOk(file, s) && Leads(file, s, a, t) && Leads(file, t, b, u)
    ensures Leads(file, s, a + b, u)
    decreases |a|
  {
    if a == [] {
      assert a + b == b;
    } else {
      assert (a + b)[0] == a[0] && (a + b)[1..] == a[1..] + b;
      LeadsOn(file, Apply(file, s, a[0]), a[1..], t, b, u);
    }
  }

  lemma ReachesStep(file: seq<Byte>, s: Sys, e: Event)
    requires SysOk(file, s) && Enabled(s, e)
    ensures Reaches(file, s, Apply(file, s, e))
  {
    var t := Apply(file, s, e);
    assert Leads(file, t, [e][1..], t);
    assert Leads(file, s, [e], t);
  }

  lemma ReachesSelf(file: seq<Byte>, s: Sys)
    requires SysOk(file, s)
    ensures Reaches(file, s, s)
  {
    assert Leads(file, s, [], s);
  }

  lemma ReachesOn(file: seq<Byte>, s: Sys, t: Sys, u: Sys)
    requires SysOk(file, s) && Reaches(file, s, t) && Reaches(file, t, u)
    ensures Reaches(file, s, u)
  {
    var a :| Leads(file, s, a, t);
    var b :| Leads(file, t, b, u);
    LeadsOn(file, s, a, t, b, u);
  }
}
